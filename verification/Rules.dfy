/** What the rules on a program's text come to: they are checked at each node, and ask
    nothing of the others. */
module Rules {
  import opened Source
  import opened Wrappers
  import opened Match
  import opened Discipline

  datatype Node = S(st: Stmt) | E(e: Expr) | A(arm: Arm)

  /** All nodes of a statement; unless `deep`, none within a try body or a try operand. */
  function Nodes(st: Stmt, deep: bool): set<Node> {
    {S(st)} +
    match st
    case Skip => {}
    case Seq(a, b) => Nodes(a, deep) + Nodes(b, deep)
    case Do(e) => NodesExpr(e, deep)
    case Assign(_, e) => NodesExpr(e, deep)
    case Print(e) => NodesExpr(e, deep)
    case If(c, t, f) => NodesExpr(c, deep) + Nodes(t, deep) + Nodes(f, deep)
    case ThrowStmt(e, _, _, _, _, _) => NodesExpr(e, deep)
    case Return(e) => NodesExpr(e, deep)
    case TryCatch(b, cs, f) => (if deep then Nodes(b, deep) else {}) + NodesCatches(cs, deep) + Nodes(f, deep)
  }

  function NodesCatches(cs: Catches, deep: bool): set<Node> {
    if cs.NoMore? then {} else Nodes(cs.body, deep) + NodesCatches(cs.rest, deep)
  }

  function NodesExpr(e: Expr, deep: bool): set<Node> {
    {E(e)} +
    match e
    case Lit(_) => {}
    case Var(_) => {}
    case Add(l, r) => NodesExpr(l, deep) + NodesExpr(r, deep)
    case Try(e1, _, fb) => (if deep then NodesExpr(e1, deep) else {}) + NodesOption(fb, deep)
    case TryUntyped(e1, fb) => NodesExpr(e1, deep) + NodesOption(fb, deep)
    case CatchUnwrap(e1, _, _, b) => NodesExpr(e1, deep) + Nodes(b, deep)
    case Propagate(e1, _, _, _, b) => NodesExpr(e1, deep) + Nodes(b, deep)
    case PropagateVoid(e1, _, b) => NodesExpr(e1, deep) + Nodes(b, deep)
    case Build(_, p, _) => NodesOption(p, deep)
    case MatchOn(e1, _, arms) => NodesExpr(e1, deep) + NodesArms(arms, deep)
  }

  function NodesOption(e: Option<Expr>, deep: bool): set<Node> {
    match e case None => {} case Some(x) => NodesExpr(x, deep)
  }

  function NodesArms(arms: seq<Arm>, deep: bool): set<Node>
    decreases arms
  {
    if arms == [] then {} else NodesArm(arms[0], deep) + NodesArms(arms[1..], deep)
  }

  function NodesArm(a: Arm, deep: bool): set<Node>
    decreases a
  {
    {A(a)} + NodesOption(a.guard, deep) + NodesBody(a.body, deep)
  }

  function NodesBody(b: Body, deep: bool): set<Node> {
    Nodes(b.pre, deep) + NodesOption(b.value, deep) + Nodes(b.post, deep)
  }

  // ---------------------------------------------------------------- what is asked of a node

  /** `ret`, and `?` in either form. */
  ghost predicate Leaving(ns: set<Node>) {
    exists n :: n in ns && ((n.S? && n.st.Return?) || (n.E? && (n.e.Propagate? || n.e.PropagateVoid?)))
  }

  ghost predicate Throwing(ns: set<Node>, t: ThrownType) {
    exists n :: n in ns && n.S? && n.st.ThrowStmt? && (n.st.typeName, n.st.parent) == t
  }

  predicate NodeKeeps(rule: Rule, n: Node) {
    match n
    case S(st) => st.TryCatch? ==> TryKeeps(rule, st.body, st.catches, st.final)
    case E(e) =>
      && (rule.Balanced? && e.Try? ==> !MayReturnExpr(e.e))
      && (rule.Faithful? && e.TryUntyped? ==> e.fallback.None? && ThrowsExpr(e.e) == {})
      && (rule.Caught? && e.MatchOn? ==> e.arms != [] && e.arms[|e.arms| - 1].guard.None?)
    case A(arm) => (rule.Faithful? ==> !HasIgnored(arm.patterns)) && BodyKeeps(rule, arm.body)
  }

  ghost predicate AllKeep(rule: Rule, ns: set<Node>) { forall n | n in ns :: NodeKeeps(rule, n) }

  /** The nodes of a piece of text, and what the rules say of it. */
  datatype Verdict = Verdict(deep: set<Node>, open: set<Node>, mayReturn: bool, throws: set<ThrownType>, keeps: bool)

  function Both(x: Verdict, y: Verdict): Verdict {
    Verdict(x.deep + y.deep, x.open + y.open, x.mayReturn || y.mayReturn, x.throws + y.throws, x.keeps && y.keeps)
  }

  /** The text may return exactly when it has a `ret` or `?`; the types it may throw are
      exactly those of its throw statements outside try bodies and operands; and it keeps
      the rule exactly when each of its nodes does. */
  ghost predicate Right(rule: Rule, v: Verdict) {
    && (v.mayReturn <==> Leaving(v.deep))
    && (forall t :: t in v.throws <==> Throwing(v.open, t))
    && (v.keeps <==> AllKeep(rule, v.deep))
  }

  lemma BothRight(rule: Rule, x: Verdict, y: Verdict)
    requires Right(rule, x) && Right(rule, y)
    ensures Right(rule, Both(x, y))
  {
    hide NodeKeeps;
  }

  const NOTHING := Verdict({}, {}, false, {}, true)

  function Own(rule: Rule, n: Node): Verdict {
    Verdict({n}, {n},
            (n.S? && n.st.Return?) || (n.E? && (n.e.Propagate? || n.e.PropagateVoid?)),
            if n.S? && n.st.ThrowStmt? then {(n.st.typeName, n.st.parent)} else {},
            NodeKeeps(rule, n))
  }

  lemma OwnRight(rule: Rule, n: Node)
    ensures Right(rule, Own(rule, n)) && Right(rule, NOTHING)
  {
    hide NodeKeeps;
    assert n in {n};
  }

  /** Of what lies within a try body or operand nothing is thrown outside. */
  function Inside(x: Verdict): Verdict { x.(open := {}, throws := {}) }

  lemma InsideRight(rule: Rule, x: Verdict)
    requires Right(rule, x)
    ensures Right(rule, Inside(x))
  {
    hide NodeKeeps, Leaving;
  }

  function OfStmt(rule: Rule, st: Stmt): Verdict {
    Verdict(Nodes(st, true), Nodes(st, false), MayReturn(st), Throws(st), Keeps(rule, st))
  }

  function OfCatches(rule: Rule, cs: Catches): Verdict {
    Verdict(NodesCatches(cs, true), NodesCatches(cs, false), MayReturnCatches(cs), ThrowsCatches(cs), KeepsCatches(rule, cs))
  }

  function OfExpr(rule: Rule, e: Expr): Verdict {
    Verdict(NodesExpr(e, true), NodesExpr(e, false), MayReturnExpr(e), ThrowsExpr(e), KeepsExpr(rule, e))
  }

  function OfOption(rule: Rule, e: Option<Expr>): Verdict {
    Verdict(NodesOption(e, true), NodesOption(e, false), e.Some? && MayReturnExpr(e.value),
            if e.Some? then ThrowsExpr(e.value) else {}, e.Some? ==> KeepsExpr(rule, e.value))
  }

  function OfArms(rule: Rule, arms: seq<Arm>): Verdict {
    Verdict(NodesArms(arms, true), NodesArms(arms, false), MayReturnArms(arms), ThrowsArms(arms), KeepsArms(rule, arms))
  }

  function OfArm(rule: Rule, a: Arm): Verdict {
    Verdict(NodesArm(a, true), NodesArm(a, false), MayReturnArm(a), ThrowsArm(a), KeepsArm(rule, a))
  }

  /** A node and two parts. */
  lemma Node2(rule: Rule, n: Node, x: Verdict, y: Verdict, v: Verdict)
    requires Right(rule, x) && Right(rule, y) && v == Both(Own(rule, n), Both(x, y))
    ensures Right(rule, v)
  {
    hide Right, Own;
    OwnRight(rule, n);
    BothRight(rule, x, y);
    BothRight(rule, Own(rule, n), Both(x, y));
  }

  lemma {:induction false} StmtRules(rule: Rule, st: Stmt)
    ensures Right(rule, OfStmt(rule, st))
    decreases st
  {
    hide Right, TryKeeps, BodyKeeps;
    OwnRight(rule, S(st));
    match st
    case Skip => Node2(rule, S(st), NOTHING, NOTHING, OfStmt(rule, st));
    case Seq(a, b) =>
      StmtRules(rule, a);
      StmtRules(rule, b);
      Node2(rule, S(st), OfStmt(rule, a), OfStmt(rule, b), OfStmt(rule, st));
    case Do(e) => OperandOnly(rule, st, e);
    case Assign(_, e) => OperandOnly(rule, st, e);
    case Print(e) => OperandOnly(rule, st, e);
    case ThrowStmt(e, _, _, _, _, _) => OperandOnly(rule, st, e);
    case Return(e) => OperandOnly(rule, st, e);
    case If(_, _, _) => IfRules(rule, st);
    case TryCatch(_, _, _) => TryRules(rule, st);
  }

  lemma {:induction false} OperandOnly(rule: Rule, st: Stmt, e: Expr)
    requires (st.Do? || st.Assign? || st.Print? || st.ThrowStmt? || st.Return?) && st.e == e
    ensures Right(rule, OfStmt(rule, st))
    decreases st, 0
  {
    hide Right;
    OwnRight(rule, S(st));
    ExprRules(rule, e);
    Node2(rule, S(st), OfExpr(rule, e), NOTHING, OfStmt(rule, st));
  }

  lemma {:induction false} OptionRules(rule: Rule, e: Option<Expr>)
    ensures Right(rule, OfOption(rule, e))
    decreases e
  {
    hide Right;
    OwnRight(rule, S(Skip));
    match e
    case None => assert OfOption(rule, e) == NOTHING;
    case Some(x) =>
      ExprRules(rule, x);
      assert OfOption(rule, e) == OfExpr(rule, x);
  }

  lemma {:induction false} IfRules(rule: Rule, st: Stmt)
    requires st.If?
    ensures Right(rule, OfStmt(rule, st))
    decreases st, 0
  {
    hide Right;
    ExprRules(rule, st.cond);
    StmtRules(rule, st.thn);
    StmtRules(rule, st.els);
    BothRight(rule, OfStmt(rule, st.thn), OfStmt(rule, st.els));
    Node2(rule, S(st), OfExpr(rule, st.cond), Both(OfStmt(rule, st.thn), OfStmt(rule, st.els)), OfStmt(rule, st));
  }

  lemma {:induction false} TryRules(rule: Rule, st: Stmt)
    requires st.TryCatch?
    ensures Right(rule, OfStmt(rule, st))
    decreases st, 0
  {
    hide Right, TryKeeps;
    StmtRules(rule, st.body);
    InsideRight(rule, OfStmt(rule, st.body));
    CatchesRules(rule, st.catches);
    StmtRules(rule, st.final);
    BothRight(rule, OfCatches(rule, st.catches), OfStmt(rule, st.final));
    Node2(rule, S(st), Inside(OfStmt(rule, st.body)), Both(OfCatches(rule, st.catches), OfStmt(rule, st.final)),
          OfStmt(rule, st));
  }

  lemma {:induction false} CatchesRules(rule: Rule, cs: Catches)
    ensures Right(rule, OfCatches(rule, cs))
    decreases cs
  {
    hide Right;
    OwnRight(rule, S(Skip));
    if cs.Catch? {
      StmtRules(rule, cs.body);
      CatchesRules(rule, cs.rest);
      BothRight(rule, OfStmt(rule, cs.body), OfCatches(rule, cs.rest));
      assert OfCatches(rule, cs) == Both(OfStmt(rule, cs.body), OfCatches(rule, cs.rest));
    } else {
      assert OfCatches(rule, cs) == NOTHING;
    }
  }

  lemma {:induction false} ExprRules(rule: Rule, e: Expr)
    ensures Right(rule, OfExpr(rule, e))
    decreases e
  {
    hide Right;
    OwnRight(rule, E(e));
    match e
    case Lit(_) => Node2(rule, E(e), NOTHING, NOTHING, OfExpr(rule, e));
    case Var(_) => Node2(rule, E(e), NOTHING, NOTHING, OfExpr(rule, e));
    case Add(_, _) => AddRules(rule, e);
    case Try(_, _, _) => TryExprRules(rule, e);
    case TryUntyped(_, _) => UntypedRules(rule, e);
    case CatchUnwrap(e1, _, _, b) => OperandAndBlock(rule, e, e1, b);
    case Propagate(e1, _, _, _, b) => OperandAndBlock(rule, e, e1, b);
    case PropagateVoid(e1, _, b) => OperandAndBlock(rule, e, e1, b);
    case Build(_, p, _) => BuildRules(rule, e);
    case MatchOn(_, _, _) => MatchRules(rule, e);
  }

  lemma {:induction false} AddRules(rule: Rule, e: Expr)
    requires e.Add?
    ensures Right(rule, OfExpr(rule, e))
    decreases e, 0
  {
    hide Right;
    ExprRules(rule, e.l);
    ExprRules(rule, e.r);
    Node2(rule, E(e), OfExpr(rule, e.l), OfExpr(rule, e.r), OfExpr(rule, e));
  }

  lemma {:induction false} TryExprRules(rule: Rule, e: Expr)
    requires e.Try?
    ensures Right(rule, OfExpr(rule, e))
    decreases e, 0
  {
    hide Right;
    ExprRules(rule, e.e);
    InsideRight(rule, OfExpr(rule, e.e));
    OptionRules(rule, e.fallback);
    Node2(rule, E(e), Inside(OfExpr(rule, e.e)), OfOption(rule, e.fallback), OfExpr(rule, e));
  }

  lemma {:induction false} UntypedRules(rule: Rule, e: Expr)
    requires e.TryUntyped?
    ensures Right(rule, OfExpr(rule, e))
    decreases e, 0
  {
    hide Right;
    ExprRules(rule, e.e);
    OptionRules(rule, e.fallback);
    Node2(rule, E(e), OfExpr(rule, e.e), OfOption(rule, e.fallback), OfExpr(rule, e));
  }

  lemma {:induction false} BuildRules(rule: Rule, e: Expr)
    requires e.Build?
    ensures Right(rule, OfExpr(rule, e))
    decreases e, 0
  {
    hide Right;
    OwnRight(rule, E(e));
    OptionRules(rule, e.payload);
    Node2(rule, E(e), OfOption(rule, e.payload), NOTHING, OfExpr(rule, e));
  }

  lemma {:induction false} MatchRules(rule: Rule, e: Expr)
    requires e.MatchOn?
    ensures Right(rule, OfExpr(rule, e))
    decreases e, 0
  {
    hide Right;
    ExprRules(rule, e.e);
    ArmsRules(rule, e.arms);
    Node2(rule, E(e), OfExpr(rule, e.e), OfArms(rule, e.arms), OfExpr(rule, e));
  }

  lemma {:induction false} OperandAndBlock(rule: Rule, e: Expr, e1: Expr, b: Stmt)
    requires (e.CatchUnwrap? && e.e == e1 && e.block == b) || (e.Propagate? && e.e == e1 && e.context == b)
      || (e.PropagateVoid? && e.e == e1 && e.context == b)
    ensures Right(rule, OfExpr(rule, e))
    decreases e, 0
  {
    hide Right;
    ExprRules(rule, e1);
    StmtRules(rule, b);
    Node2(rule, E(e), OfExpr(rule, e1), OfStmt(rule, b), OfExpr(rule, e));
  }

  lemma {:induction false} ArmsRules(rule: Rule, arms: seq<Arm>)
    ensures Right(rule, OfArms(rule, arms))
    decreases arms
  {
    hide Right;
    OwnRight(rule, S(Skip));
    if arms == [] {
      assert OfArms(rule, arms) == NOTHING;
    } else {
      ArmRules(rule, arms[0]);
      ArmsRules(rule, arms[1..]);
      BothRight(rule, OfArm(rule, arms[0]), OfArms(rule, arms[1..]));
      assert OfArms(rule, arms) == Both(OfArm(rule, arms[0]), OfArms(rule, arms[1..]));
    }
  }

  /** A body's statements and value; what the rule asks of the body itself is asked of
      its arm. */
  function OfBody(rule: Rule, b: Body): Verdict {
    Verdict(NodesBody(b, true), NodesBody(b, false), MayReturnBody(b), ThrowsBody(b),
            Keeps(rule, b.pre) && (b.value.Some? ==> KeepsExpr(rule, b.value.value)) && Keeps(rule, b.post))
  }

  lemma {:induction false} BodyRules(rule: Rule, b: Body)
    ensures Right(rule, OfBody(rule, b))
    decreases b
  {
    hide Right, Nodes, MayReturn, Throws, Keeps;
    StmtRules(rule, b.pre);
    OptionRules(rule, b.value);
    StmtRules(rule, b.post);
    var x := Both(OfStmt(rule, b.pre), OfOption(rule, b.value));
    BothRight(rule, OfStmt(rule, b.pre), OfOption(rule, b.value));
    BothRight(rule, x, OfStmt(rule, b.post));
    assert OfBody(rule, b) == Both(x, OfStmt(rule, b.post));
  }

  lemma {:induction false} ArmRules(rule: Rule, a: Arm)
    ensures Right(rule, OfArm(rule, a))
    decreases a
  {
    hide Right, BodyKeeps, HasIgnored;
    OptionRules(rule, a.guard);
    BodyRules(rule, a.body);
    ArmKeeps(rule, a);
    Node2(rule, A(a), OfOption(rule, a.guard), OfBody(rule, a.body), OfArm(rule, a));
  }

  lemma ArmKeeps(rule: Rule, a: Arm)
    ensures KeepsArm(rule, a) <==>
      NodeKeeps(rule, A(a)) && (a.guard.Some? ==> KeepsExpr(rule, a.guard.value)) && OfBody(rule, a.body).keeps
  {
    hide Keeps, KeepsExpr;
  }

  /** So a program keeps a rule exactly when each of its nodes does. */
  lemma KeepsIff(rule: Rule, st: Stmt)
    ensures Keeps(rule, st) <==> forall n | n in Nodes(st, true) :: NodeKeeps(rule, n)
    ensures MayReturn(st) <==> Leaving(Nodes(st, true))
    ensures forall t :: t in Throws(st) <==> Throwing(Nodes(st, false), t)
  {
    hide Nodes, Keeps, Throws, MayReturn;
    StmtRules(rule, st);
  }

  lemma CatchesIff(cs: Catches)
    ensures MayReturnCatches(cs) <==> Leaving(NodesCatches(cs, true))
    ensures forall t :: t in ThrowsCatches(cs) <==> Throwing(NodesCatches(cs, false), t)
  {
    hide NodesCatches, KeepsCatches, ThrowsCatches, MayReturnCatches;
    CatchesRules(Caught, cs);
  }

  lemma Nothing(ts: set<ThrownType>, ns: set<Node>)
    requires forall t :: t in ts <==> Throwing(ns, t)
    ensures ts == {} <==> Silent(ns)
  {
    hide Throwing;
    if ts == {} {
      forall t ensures !Throwing(ns, t) { assert t !in ts; }
    } else {
      var t :| t in ts;
      assert Throwing(ns, t);
    }
  }

  ghost predicate Covered(ns: set<Node>, cs: Catches) {
    forall t | Throwing(ns, t) :: FirstClause(cs, t).Some?
  }

  lemma AllCovered(ts: set<ThrownType>, ns: set<Node>, cs: Catches)
    requires forall t :: t in ts <==> Throwing(ns, t)
    ensures (forall t | t in ts :: FirstClause(cs, t).Some?) <==> Covered(ns, cs)
  {
    hide Throwing, FirstClause;
  }

  ghost predicate Silent(ns: set<Node>) { forall t :: !Throwing(ns, t) }

  /** What the rules ask of a `try` statement, in terms of nodes. */
  lemma CaughtIff(b: Stmt, cs: Catches, f: Stmt)
    ensures TryKeeps(Caught, b, cs, f) <==> cs != NoMore && Covered(Nodes(b, false), cs)
  {
    hide Nodes, NodesCatches, Leaving, Throwing, FirstClause, Silent, Covered, Keeps, KeepsCatches;
    KeepsIff(Caught, b);
    AllCovered(Throws(b), Nodes(b, false), cs);
  }

  lemma BalancedIff(b: Stmt, cs: Catches, f: Stmt)
    ensures TryKeeps(Balanced, b, cs, f) <==>
      && !Leaving(Nodes(b, true)) && !Leaving(NodesCatches(cs, true)) && Silent(NodesCatches(cs, false))
      && !Leaving(Nodes(f, true)) && Silent(Nodes(f, false))
  {
    hide Nodes, NodesCatches, Leaving, Throwing, FirstClause, Silent, Covered, Keeps, KeepsCatches;
    KeepsIff(Caught, b);
    CatchesIff(cs);
    KeepsIff(Caught, f);
    Nothing(ThrowsCatches(cs), NodesCatches(cs, false));
    Nothing(Throws(f), Nodes(f, false));
  }

  lemma FaithfulIff(b: Stmt, cs: Catches, f: Stmt)
    ensures TryKeeps(Faithful, b, cs, f) <==>
      f == Skip || (!Leaving(Nodes(b, true)) && !Leaving(NodesCatches(cs, true)) && Silent(NodesCatches(cs, false)))
  {
    hide Nodes, NodesCatches, Leaving, Throwing, FirstClause, Silent, Covered, Keeps, KeepsCatches;
    KeepsIff(Caught, b);
    CatchesIff(cs);
    Nothing(ThrowsCatches(cs), NodesCatches(cs, false));
  }

  lemma BodyKeepsIff(pre: Stmt, value: Option<Expr>, post: Stmt)
    ensures BodyKeeps(Caught, Body(pre, value, post)) && BodyKeeps(Balanced, Body(pre, value, post))
    ensures BodyKeeps(Faithful, Body(pre, value, post)) <==>
      match value case None => true case Some(e) => post == Return(e) ==> Effectless(e)
  {
  }

  // ---------------------------------------------------------------- effects

  /** Writes no local, prints nothing, and is no try/catch statement. */
  predicate Traceless(n: Node) {
    match n
    case S(st) => !st.Assign? && !st.Print? && !st.TryCatch?
    case E(e) =>
      && (e.CatchUnwrap? ==> e.it.None?)
      && (e.MatchOn? ==> BindsNone(e.on, e.arms))
    case A(_) => true
  }

  predicate BindsNone(k: Kind, arms: seq<Arm>) { forall i | 0 <= i < |arms| :: BindOf(k, arms[i].patterns).None? }

  ghost predicate AllTraceless(ns: set<Node>) { forall n | n in ns :: Traceless(n) }

  lemma TracelessUnion(a: set<Node>, b: set<Node>)
    ensures AllTraceless(a + b) <==> AllTraceless(a) && AllTraceless(b)
  {
    hide Traceless;
  }

  lemma TracelessOne(n: Node)
    ensures AllTraceless({n}) <==> Traceless(n)
    ensures AllTraceless({})
  {
    hide Traceless;
    assert n in {n};
  }

  /** A node, and two parts. */
  lemma TracelessNode(n: Node, a: set<Node>, b: set<Node>, all: set<Node>)
    requires all == {n} + a + b
    ensures AllTraceless(all) <==> Traceless(n) && AllTraceless(a) && AllTraceless(b)
  {
    hide Traceless, AllTraceless;
    TracelessOne(n);
    TracelessUnion({n}, a);
    TracelessUnion({n} + a, b);
  }

  /** An expression is effectless exactly when none of its nodes leaves a trace. */
  lemma {:induction false} EffectlessIff(e: Expr)
    ensures Effectless(e) <==> AllTraceless(NodesExpr(e, true))
    decreases e
  {
    hide AllTraceless, BindsNone;
    TracelessOne(E(e));
    match e
    case Lit(_) => TracelessNode(E(e), {}, {}, NodesExpr(e, true));
    case Var(_) => TracelessNode(E(e), {}, {}, NodesExpr(e, true));
    case Add(l, r) =>
      EffectlessIff(l);
      EffectlessIff(r);
      TracelessNode(E(e), NodesExpr(l, true), NodesExpr(r, true), NodesExpr(e, true));
    case Try(e1, _, fb) => OperandAndOption(e, e1, fb);
    case TryUntyped(e1, fb) => OperandAndOption(e, e1, fb);
    case CatchUnwrap(e1, _, _, b) => OperandThenBlock(e, e1, b);
    case Propagate(e1, _, _, _, b) => OperandThenBlock(e, e1, b);
    case PropagateVoid(e1, _, b) => OperandThenBlock(e, e1, b);
    case Build(_, p, _) =>
      OptionEffectless(p);
      TracelessNode(E(e), NodesOption(p, true), {}, NodesExpr(e, true));
    case MatchOn(e1, k, arms) =>
      EffectlessIff(e1);
      ArmsEffectless(k, arms);
      TracelessNode(E(e), NodesExpr(e1, true), NodesArms(arms, true), NodesExpr(e, true));
  }

  lemma {:induction false} OptionEffectless(e: Option<Expr>)
    ensures (e.Some? ==> Effectless(e.value)) <==> AllTraceless(NodesOption(e, true))
    decreases e
  {
    hide AllTraceless;
    TracelessOne(S(Skip));
    if e.Some? { EffectlessIff(e.value); }
  }

  lemma {:induction false} OperandAndOption(e: Expr, e1: Expr, fb: Option<Expr>)
    requires (e.Try? || e.TryUntyped?) && e.e == e1 && e.fallback == fb
    ensures Effectless(e) <==> AllTraceless(NodesExpr(e, true))
    decreases e, 0
  {
    hide AllTraceless;
    EffectlessIff(e1);
    OptionEffectless(fb);
    TracelessNode(E(e), NodesExpr(e1, true), NodesOption(fb, true), NodesExpr(e, true));
  }

  lemma {:induction false} OperandThenBlock(e: Expr, e1: Expr, b: Stmt)
    requires (e.CatchUnwrap? && e.e == e1 && e.block == b) || (e.Propagate? && e.e == e1 && e.context == b)
      || (e.PropagateVoid? && e.e == e1 && e.context == b)
    ensures Effectless(e) <==> AllTraceless(NodesExpr(e, true))
    decreases e, 0
  {
    hide AllTraceless;
    EffectlessIff(e1);
    BlockEffectless(b);
    TracelessNode(E(e), NodesExpr(e1, true), Nodes(b, true), NodesExpr(e, true));
  }

  lemma {:induction false} BlockEffectless(st: Stmt)
    ensures EffectlessStmt(st) <==> AllTraceless(Nodes(st, true))
    decreases st
  {
    hide AllTraceless;
    TracelessOne(S(st));
    match st
    case Skip => TracelessNode(S(st), {}, {}, Nodes(st, true));
    case Seq(a, b) =>
      BlockEffectless(a);
      BlockEffectless(b);
      TracelessNode(S(st), Nodes(a, true), Nodes(b, true), Nodes(st, true));
    case Do(e) => EffectlessIff(e); TracelessNode(S(st), NodesExpr(e, true), {}, Nodes(st, true));
    case ThrowStmt(e, _, _, _, _, _) => EffectlessIff(e); TracelessNode(S(st), NodesExpr(e, true), {}, Nodes(st, true));
    case Return(e) => EffectlessIff(e); TracelessNode(S(st), NodesExpr(e, true), {}, Nodes(st, true));
    case If(c, t, f) =>
      EffectlessIff(c);
      BlockEffectless(t);
      BlockEffectless(f);
      TracelessUnion(Nodes(t, true), Nodes(f, true));
      TracelessNode(S(st), NodesExpr(c, true), Nodes(t, true) + Nodes(f, true), Nodes(st, true));
    case _ => NotTraceless(S(st), Nodes(st, true));
  }

  lemma NotTraceless(n: Node, ns: set<Node>)
    requires n in ns && !Traceless(n)
    ensures !AllTraceless(ns)
  {
  }

  lemma {:induction false} ArmsEffectless(k: Kind, arms: seq<Arm>)
    ensures EffectlessArms(k, arms) <==> BindsNone(k, arms) && AllTraceless(NodesArms(arms, true))
    decreases arms
  {
    hide AllTraceless, BindOf;
    TracelessOne(S(Skip));
    if arms != [] {
      ArmEffectless(k, arms[0]);
      ArmsEffectless(k, arms[1..]);
      TracelessUnion(NodesArm(arms[0], true), NodesArms(arms[1..], true));
      assert BindsNone(k, arms) <==> BindOf(k, arms[0].patterns).None? && BindsNone(k, arms[1..]) by {
        assert forall i | 0 <= i < |arms[1..]| :: arms[1..][i] == arms[i + 1];
      }
    }
  }

  lemma {:induction false} ArmEffectless(k: Kind, a: Arm)
    ensures EffectlessArm(k, a) <==> BindOf(k, a.patterns).None? && AllTraceless(NodesArm(a, true))
    decreases a
  {
    hide AllTraceless, BindOf;
    var b := a.body;
    OptionEffectless(a.guard);
    BlockEffectless(b.pre);
    OptionEffectless(b.value);
    BlockEffectless(b.post);
    TracelessUnion(Nodes(b.pre, true), NodesOption(b.value, true));
    TracelessUnion(Nodes(b.pre, true) + NodesOption(b.value, true), Nodes(b.post, true));
    TracelessNode(A(a), NodesOption(a.guard, true), NodesBody(b, true), NodesArm(a, true));
  }
}
