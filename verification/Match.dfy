/** What a `match` means: which arm runs, which values a pattern takes, and what an
    arm that returns does (src/IRBuilder/IRGen_flow.cpp, visitMatchExpr). */
module Match {
  import opened Ir
  import opened Source
  import opened Wrappers

  // ---------------------------------------------------------------- which arm

  /** The state in which arm `i` is tested, when every arm before it is passed over. */
  function StateAt(k: Kind, arms: seq<Arm>, i: nat, x: Value, s: State): State
    requires i <= |arms|
  {
    if i == 0 then s
    else
      match TryArm(k, arms[0], x, s)
      case Missed(g) => StateAt(k, arms[1..], i - 1, x, g.s)
      case Taken(_) => s
  }

  ghost predicate PassedOver(k: Kind, arms: seq<Arm>, i: nat, x: Value, s: State)
    requires i < |arms|
  {
    TryArm(k, arms[i], x, StateAt(k, arms, i, x, s)).Missed?
  }

  /** Arm `i` is the one whose body runs, or whose guard ends the match, exactly
      when it is the first that is not passed over. */
  ghost predicate First(k: Kind, arms: seq<Arm>, i: nat, x: Value, s: State) {
    && i < |arms| && !PassedOver(k, arms, i, x, s)
    && forall j: nat | j < i :: PassedOver(k, arms, j, x, s)
  }

  lemma {:induction false} FirstArm(k: Kind, arms: seq<Arm>, i: nat, x: Value, s: State)
    requires First(k, arms, i, x, s)
    ensures var t := TryArm(k, arms[i], x, StateAt(k, arms, i, x, s));
      var r := EvalArms(k, arms, x, s);
      t.Taken? && r.o == t.r.o && r.s == t.r.s && r.leaked >= t.r.leaked && r.dangling == t.r.dangling
    decreases i
  {
    hide TryArm;
    if i > 0 {
      assert PassedOver(k, arms, 0, x, s);
      var g := TryArm(k, arms[0], x, s).g;
      forall j: nat | j < i - 1 ensures PassedOver(k, arms[1..], j, x, g.s) {
        assert PassedOver(k, arms, j + 1, x, s);
      }
      assert First(k, arms[1..], i - 1, x, g.s);
      FirstArm(k, arms[1..], i - 1, x, g.s);
    }
  }

  /** Otherwise no body runs, and the value is undefined if the last arm's patterns
      were what failed. */
  lemma {:induction false} NoArm(k: Kind, arms: seq<Arm>, x: Value, s: State)
    requires arms != [] && forall j: nat | j < |arms| :: PassedOver(k, arms, j, x, s)
    ensures EvalArms(k, arms, x, s).o ==
      if ArmMatches(k, arms[|arms| - 1], x) then Broken else Normal(Undef)
    decreases |arms|
  {
    hide ArmMatches;
    assert PassedOver(k, arms, 0, x, s);
    var g := TryArm(k, arms[0], x, s).g;
    if |arms| > 1 {
      forall j: nat | j < |arms[1..]| ensures PassedOver(k, arms[1..], j, x, g.s) {
        assert PassedOver(k, arms, j + 1, x, s);
      }
      NoArm(k, arms[1..], x, g.s);
    }
  }

  // ---------------------------------------------------------------- variants

  ghost predicate DistinctVariants(vs: seq<VariantInfo>) {
    forall i, j | 0 <= i < j < |vs| :: vs[i].name != vs[j].name && vs[i].disc != vs[j].disc
  }

  lemma {:induction false} FindIs(vs: seq<VariantInfo>, i: nat)
    requires i < |vs| && forall j | 0 <= j < i :: vs[j].name != vs[i].name
    ensures Find(vs, vs[i].name) == Some(vs[i])
  {
    if i > 0 { FindIs(vs[1..], i - 1); }
  }

  function VariantValue(k: Kind, i: nat, payload: Value): Value
    requires i < |k.variants|
  {
    if k.unit then Int(k.variants[i].disc) else Tagged(k.variants[i].disc, payload)
  }

  /** With distinct discriminants a value of variant `i` passes the pattern of variant
      `j` exactly when they are the same one, or the pattern is `V(_)`. */
  lemma VariantPasses(k: Kind, i: nat, j: nat, inner: Inner, payload: Value)
    requires DistinctVariants(k.variants) && i < |k.variants| && j < |k.variants|
    ensures Passes(k, Variant(k.variants[j].name, inner), VariantValue(k, i, payload)) <==> i == j || inner.Ignored?
  {
    FindIs(k.variants, j);
    if i < j { assert k.variants[i].disc != k.variants[j].disc; }
    if j < i { assert k.variants[j].disc != k.variants[i].disc; }
  }

  /** Without the `_`, a pattern says only which variant it is for. */
  function Written(p: Pattern): Pattern {
    if p.Variant? && p.inner.Ignored? then p.(inner := Absent) else p
  }

  function AsWritten(ps: seq<Pattern>): (r: seq<Pattern>)
    ensures |r| == |ps| && forall i | 0 <= i < |ps| :: r[i] == Written(ps[i])
  {
    seq(|ps|, i requires 0 <= i < |ps| => Written(ps[i]))
  }

  predicate HasIgnored(ps: seq<Pattern>) { exists i :: 0 <= i < |ps| && ps[i].Variant? && ps[i].inner.Ignored? }

  predicate HasBare(ps: seq<Pattern>) { exists i :: 0 <= i < |ps| && ps[i].Wildcard? }

  predicate Names(ps: seq<Pattern>, name: string) { exists i :: 0 <= i < |ps| && ps[i].Variant? && ps[i].name == name }

  /** The patterns of an arm over an enum, as the checker admits them. */
  ghost predicate EnumPatterns(k: Kind, ps: seq<Pattern>) {
    forall i | 0 <= i < |ps| ::
      !ps[i].Literal? && (ps[i].Variant? ==> exists j :: 0 <= j < |k.variants| && k.variants[j].name == ps[i].name)
  }

  lemma WrittenPasses(k: Kind, ps: seq<Pattern>, i: nat, payload: Value)
    requires DistinctVariants(k.variants) && EnumPatterns(k, ps) && i < |k.variants|
    ensures AnyPasses(k, AsWritten(ps), VariantValue(k, i, payload)) <==> HasBare(ps) || Names(ps, k.variants[i].name)
  {
    hide Passes;
    var x := VariantValue(k, i, payload);
    var qs := AsWritten(ps);
    forall n | 0 <= n < |ps|
      ensures Passes(k, qs[n], x) <==> ps[n].Wildcard? || (ps[n].Variant? && ps[n].name == k.variants[i].name)
    {
      if ps[n].Variant? {
        var j :| 0 <= j < |k.variants| && k.variants[j].name == ps[n].name;
        VariantPasses(k, i, j, qs[n].inner, payload);
      } else {
        BarePasses(k, x);
      }
    }
    if HasBare(ps) {
      var n :| 0 <= n < |ps| && ps[n].Wildcard?;
      assert Passes(k, qs[n], x);
    }
    if Names(ps, k.variants[i].name) {
      var n :| 0 <= n < |ps| && ps[n].Variant? && ps[n].name == k.variants[i].name;
      assert Passes(k, qs[n], x);
    }
  }

  lemma BarePasses(k: Kind, x: Value)
    ensures Passes(k, Wildcard, x)
  {
  }

  lemma IgnoredPasses(k: Kind, ps: seq<Pattern>, x: Value)
    requires HasIgnored(ps)
    ensures AnyPasses(k, ps, x)
  {
    var i :| 0 <= i < |ps| && ps[i].Variant? && ps[i].inner.Ignored?;
    assert Passes(k, ps[i], x);
  }

  lemma NothingIgnored(ps: seq<Pattern>)
    requires !HasIgnored(ps)
    ensures AsWritten(ps) == ps
  {
  }

  /** An arm takes the values its patterns name exactly when none of them is `V(_)`,
      or they name every variant anyway. */
  lemma SelectsIff(k: Kind, ps: seq<Pattern>)
    requires DistinctVariants(k.variants) && EnumPatterns(k, ps)
    ensures (forall i: nat, payload | i < |k.variants| ::
               AnyPasses(k, ps, VariantValue(k, i, payload)) <==> AnyPasses(k, AsWritten(ps), VariantValue(k, i, payload)))
      <==> !HasIgnored(ps) || HasBare(ps) || forall i | 0 <= i < |k.variants| :: Names(ps, k.variants[i].name)
  {
    hide AnyPasses, VariantValue;
    if HasIgnored(ps) {
      forall i: nat, payload | i < |k.variants| ensures AnyPasses(k, ps, VariantValue(k, i, payload)) {
        IgnoredPasses(k, ps, VariantValue(k, i, payload));
      }
      forall i: nat, payload | i < |k.variants|
        ensures AnyPasses(k, AsWritten(ps), VariantValue(k, i, payload)) <==> HasBare(ps) || Names(ps, k.variants[i].name)
      {
        WrittenPasses(k, ps, i, payload);
      }
      if i: nat :| i < |k.variants| && !HasBare(ps) && !Names(ps, k.variants[i].name) {
        assert !AnyPasses(k, AsWritten(ps), VariantValue(k, i, Undef));
      }
    } else {
      NothingIgnored(ps);
    }
  }

  /** `match v { A(_) -> a, B -> b }` with B's value yields a. */
  lemma IgnoredTakesAll(a: Value, b: Value, s: State)
    ensures var k := Kind(false, [VariantInfo("A", 0, true), VariantInfo("B", 1, false)]);
      var arms := [Arm([Variant("A", Ignored)], None, Yields(Skip, Lit(a))),
                   Arm([Variant("B", Absent)], None, Yields(Skip, Lit(b)))];
      EvalExpr(MatchOn(Lit(Tagged(1, Undef)), k, arms), s) == Res(Normal(a), s, 0, 0)
  {
    var k := Kind(false, [VariantInfo("A", 0, true), VariantInfo("B", 1, false)]);
    var first := Arm([Variant("A", Ignored)], None, Yields(Skip, Lit(a)));
    var arms := [first, Arm([Variant("B", Absent)], None, Yields(Skip, Lit(b)))];
    assert first.patterns[0] == Variant("A", Ignored);
    IgnoredPasses(k, first.patterns, Tagged(1, Undef));
    assert Wild(first.patterns[0]) && BindOf(k, first.patterns).None?;
    assert EvalStmt(Skip, s) == Res(Normal(Undef), s, 0, 0);
    assert EvalExpr(Lit(a), s) == Res(Normal(a), s, 0, 0);
    assert EvalBody(first.body, s) == Res(Normal(a), s, 0, 0);
    assert TryArm(k, first, Tagged(1, Undef), s) == Taken(Res(Normal(a), s, 0, 0));
    assert EvalArms(k, arms, Tagged(1, Undef), s) == Res(Normal(a), s, 0, 0);
    assert EvalExpr(Lit(Tagged(1, Undef)), s) == Res(Normal(Tagged(1, Undef)), s, 0, 0);
  }

  // ---------------------------------------------------------------- bindings

  /** Over a tagged enum, without any `_`, the first pattern with a name in parentheses
      is number `i`, and it is for variant `j`, which has a payload. */
  ghost predicate Binds(k: Kind, ps: seq<Pattern>, i: nat, j: nat, slot: nat) {
    && !k.unit && !HasBare(ps) && !HasIgnored(ps)
    && i < |ps| && j < |k.variants| && ps[i] == Variant(k.variants[j].name, Named(slot))
    && (forall l | 0 <= l < i :: !(ps[l].Variant? && ps[l].inner.Named?))
    && (forall l | 0 <= l < j :: k.variants[l].name != k.variants[j].name)
    && k.variants[j].hasPayload
  }

  function Locals(s: State, slot: Option<nat>, p: Value): State {
    if slot.Some? then s.(mem := s.mem[slot.value := p]) else s
  }

  /** The guard and the body of an arm that takes the value run with `p` in `slot`. */
  ghost predicate RunsWith(k: Kind, a: Arm, x: Value, s: State, slot: Option<nat>, p: Value) {
    TryArm(k, a, x, s) ==
      if a.guard.None? then Taken(EvalBody(a.body, Locals(s, slot, p)))
      else
        var g := EvalExpr(a.guard.value, Locals(s, slot, p));
        if !g.o.Normal? then Taken(g)
        else if g.o.v.Int? && g.o.v.n != 0 then Taken(Then(g, EvalBody(a.body, Locals(g.s, slot, p))))
        else Missed(g)
  }

  /** An arm binds the payload of every value it takes to that name, among them all
      values of that variant. */
  lemma ArmBinds(k: Kind, a: Arm, i: nat, j: nat, slot: nat, tag: int, p: Value, s: State)
    requires Binds(k, a.patterns, i, j, slot)
    ensures tag == k.variants[j].disc ==> ArmMatches(k, a, Tagged(tag, p))
    ensures ArmMatches(k, a, Tagged(tag, p)) ==> RunsWith(k, a, Tagged(tag, p), s, Some(slot), p)
  {
    hide EvalBody;
    FindIs(k.variants, j);
    FirstNamedIs(a.patterns, i);
    NoWildcard(a.patterns);
    assert BindOf(k, a.patterns) == Some(slot);
    if tag == k.variants[j].disc { assert Passes(k, a.patterns[i], Tagged(tag, p)); }
  }

  /** No other arm binds anything, whatever it takes. */
  lemma ArmBindsNothing(k: Kind, a: Arm, x: Value, s: State)
    requires ArmMatches(k, a, x) && forall i, j, slot :: !Binds(k, a.patterns, i, j, slot)
    ensures RunsWith(k, a, x, s, None, Undef)
  {
    hide EvalBody, ArmMatches;
    if BindOf(k, a.patterns).Some? { BoundBinds(k, a.patterns); }
  }

  lemma BoundBinds(k: Kind, ps: seq<Pattern>)
    requires BindOf(k, ps).Some?
    ensures exists i, j, slot :: Binds(k, ps, i, j, slot)
  {
    NoWildcard(ps);
    var i := NamedAt(ps);
    var j := FoundAt(k.variants, ps[i].name);
    assert Binds(k, ps, i, j, ps[i].inner.slot);
  }

  lemma NoWildcard(ps: seq<Pattern>)
    ensures HasWildcard(ps) <==> HasBare(ps) || HasIgnored(ps)
  {
  }

  lemma {:induction false} FirstNamedIs(ps: seq<Pattern>, i: nat)
    requires i < |ps| && ps[i].Variant? && ps[i].inner.Named?
    requires forall l | 0 <= l < i :: !(ps[l].Variant? && ps[l].inner.Named?)
    ensures FirstNamed(ps) == Some(ps[i])
  {
    if i > 0 { FirstNamedIs(ps[1..], i - 1); }
  }

  lemma {:induction false} NamedAt(ps: seq<Pattern>) returns (i: nat)
    requires FirstNamed(ps).Some?
    ensures i < |ps| && FirstNamed(ps) == Some(ps[i]) && ps[i].Variant? && ps[i].inner.Named?
    ensures forall l | 0 <= l < i :: !(ps[l].Variant? && ps[l].inner.Named?)
  {
    if ps[0].Variant? && ps[0].inner.Named? {
      i := 0;
    } else {
      i := NamedAt(ps[1..]);
      i := i + 1;
    }
  }

  lemma {:induction false} FoundAt(vs: seq<VariantInfo>, name: string) returns (j: nat)
    requires Find(vs, name).Some?
    ensures j < |vs| && Find(vs, name) == Some(vs[j]) && vs[j].name == name
    ensures forall l | 0 <= l < j :: vs[l].name != name
  {
    if vs[0].name == name {
      j := 0;
    } else {
      j := FoundAt(vs[1..], name);
      j := j + 1;
    }
  }

  // ---------------------------------------------------------------- arms that return

  /** In this state `e` yields `v` without a trace. */
  ghost predicate Repeats(e: Expr, v: Value, s: State) {
    var g := EvalExpr(e, s);
    (g.o == Normal(v) || (g.o == Returned(v) && g.dangling == 0)) && g.s == s && g.leaked == 0
  }

  /** An arm `{ init; ret e; }` does what these statements do exactly when evaluating
      e again, in the state its first evaluation left, repeats the value without
      a trace. */
  lemma ReturnsIff(init: Stmt, e: Expr, s: State)
    ensures EvalBody(Returns(init, e), s) == EvalStmt(Seq(init, Return(e)), s)
      <==> (EvalStmt(init, s).o.Normal? ==>
              var first := EvalExpr(e, EvalStmt(init, s).s);
              first.o.Normal? ==> Repeats(e, first.o.v, first.s))
  {
    var r := EvalStmt(init, s);
    if r.o.Normal? {
      var f := EvalExpr(e, r.s);
      var t := EvalStmt(Return(e), r.s);
      assert EvalStmt(Seq(init, Return(e)), s) == Then(r, t);
      if f.o.Normal? {
        var u := EvalStmt(Return(e), f.s);
        assert EvalBody(Returns(init, e), s) == Then(r, Then(f, u));
      }
    }
  }

  /** Writes no local, prints nothing and enters no try/catch statement. */
  predicate Effectless(e: Expr) {
    match e
    case Lit(_) => true
    case Var(_) => true
    case Add(l, r) => Effectless(l) && Effectless(r)
    case Try(e1, _, fb) => Effectless(e1) && (fb.Some? ==> Effectless(fb.value))
    case TryUntyped(e1, fb) => Effectless(e1) && (fb.Some? ==> Effectless(fb.value))
    case CatchUnwrap(e1, _, it, block) => Effectless(e1) && it.None? && EffectlessStmt(block)
    case Propagate(e1, _, _, _, context) => Effectless(e1) && EffectlessStmt(context)
    case PropagateVoid(e1, _, context) => Effectless(e1) && EffectlessStmt(context)
    case Build(_, p, _) => p.Some? ==> Effectless(p.value)
    case MatchOn(e1, k, arms) => Effectless(e1) && EffectlessArms(k, arms)
  }

  predicate EffectlessStmt(st: Stmt) {
    match st
    case Skip => true
    case Seq(a, b) => EffectlessStmt(a) && EffectlessStmt(b)
    case Do(e) => Effectless(e)
    case If(c, t, f) => Effectless(c) && EffectlessStmt(t) && EffectlessStmt(f)
    case ThrowStmt(e, _, _, _, _, _) => Effectless(e)
    case Return(e) => Effectless(e)
    case _ => false
  }

  predicate EffectlessArms(k: Kind, arms: seq<Arm>)
    decreases arms
  {
    arms != [] ==> EffectlessArm(k, arms[0]) && EffectlessArms(k, arms[1..])
  }

  predicate EffectlessArm(k: Kind, a: Arm)
    decreases a
  {
    BindOf(k, a.patterns).None? && (a.guard.Some? ==> Effectless(a.guard.value)) && EffectlessBody(a.body)
  }

  predicate EffectlessBody(b: Body) {
    EffectlessStmt(b.pre) && (b.value.Some? ==> Effectless(b.value.value)) && EffectlessStmt(b.post)
  }

  ghost predicate Traceless(r: Res, s: State) {
    r.s == s && (r.o.Normal? || r.o.Thrown? ==> r.leaked == 0 && r.dangling == 0)
  }

  lemma {:induction false} ExprTraceless(e: Expr, s: State)
    requires Effectless(e)
    ensures Traceless(EvalExpr(e, s), s)
    decreases e
  {
    hide BindOf;
    match e
    case Lit(_) =>
    case Var(_) =>
    case Add(l, r) => ExprTraceless(l, s); ExprTraceless(r, s);
    case Try(e1, _, fb) => ExprTraceless(e1, s); if fb.Some? { ExprTraceless(fb.value, s); }
    case TryUntyped(e1, fb) => ExprTraceless(e1, s); if fb.Some? { ExprTraceless(fb.value, s); }
    case CatchUnwrap(e1, _, _, block) => ExprTraceless(e1, s); StmtTraceless(block, s);
    case Propagate(e1, _, _, _, context) => ExprTraceless(e1, s); StmtTraceless(context, s);
    case PropagateVoid(e1, _, context) => ExprTraceless(e1, s); StmtTraceless(context, s);
    case Build(_, p, _) => if p.Some? { ExprTraceless(p.value, s); }
    case MatchOn(e1, k, arms) =>
      ExprTraceless(e1, s);
      if EvalExpr(e1, s).o.Normal? { ArmsTraceless(k, arms, EvalExpr(e1, s).o.v, s); }
  }

  lemma {:induction false} StmtTraceless(st: Stmt, s: State)
    requires EffectlessStmt(st)
    ensures Traceless(EvalStmt(st, s), s)
    decreases st
  {
    match st
    case Skip =>
    case Seq(a, b) => StmtTraceless(a, s); StmtTraceless(b, s);
    case Do(e) => ExprTraceless(e, s);
    case If(c, t, f) => ExprTraceless(c, s); StmtTraceless(t, s); StmtTraceless(f, s);
    case ThrowStmt(e, _, _, _, _, _) => ExprTraceless(e, s);
    case Return(e) => ExprTraceless(e, s);
  }

  lemma {:induction false} ArmsTraceless(k: Kind, arms: seq<Arm>, x: Value, s: State)
    requires EffectlessArms(k, arms)
    ensures Traceless(EvalArms(k, arms, x, s), s)
    decreases arms
  {
    hide BindOf, ArmMatches, EvalBody;
    if arms != [] {
      ArmTraceless(k, arms[0], x, s);
      ArmsTraceless(k, arms[1..], x, s);
    }
  }

  lemma {:induction false} ArmTraceless(k: Kind, a: Arm, x: Value, s: State)
    requires EffectlessArm(k, a)
    ensures match TryArm(k, a, x, s) case Taken(r) => Traceless(r, s) case Missed(g) => g.o.Normal? && Traceless(g, s)
    decreases a
  {
    hide BindOf, ArmMatches, EvalBody;
    if a.guard.Some? { ExprTraceless(a.guard.value, s); }
    BodyTraceless(a.body, s);
  }

  lemma {:induction false} BodyTraceless(b: Body, s: State)
    requires EffectlessBody(b)
    ensures Traceless(EvalBody(b, s), s)
    decreases b
  {
    StmtTraceless(b.pre, s);
    if b.value.Some? { ExprTraceless(b.value.value, s); }
    StmtTraceless(b.post, s);
    assert Traceless(EvalRest(b, s), s);
  }

  /** So an effectless operand may be evaluated twice. */
  lemma EffectlessReturns(init: Stmt, e: Expr, s: State)
    requires Effectless(e)
    ensures EvalBody(Returns(init, e), s) == EvalStmt(Seq(init, Return(e)), s)
  {
    hide EvalBody;
    ReturnsIff(init, e, s);
    ExprTraceless(e, EvalStmt(init, s).s);
  }

  /** Not in general: what the operand prints is printed twice. */
  lemma PrintsTwice(s: State)
    ensures var e := CatchUnwrap(Lit(Tagged(1, Undef)), 1, None, Print(Lit(Int(7))));
      && EvalStmt(Return(e), s) == Res(Returned(NULL), s.(out := s.out + [Int(7)]), 0, 0)
      && EvalBody(Returns(Skip, e), s) == Res(Returned(NULL), s.(out := s.out + [Int(7), Int(7)]), 0, 0)
  {
    var e := CatchUnwrap(Lit(Tagged(1, Undef)), 1, None, Print(Lit(Int(7))));
    var t := s.(out := s.out + [Int(7)]);
    ReturnsPrinted(s);
    ReturnsPrinted(t);
    CatchPrints(s);
    assert t.out + [Int(7)] == s.out + [Int(7), Int(7)];
    EvalReturns(Skip, e, s, NULL, t);
  }

  lemma EvalReturns(init: Stmt, e: Expr, s: State, v: Value, t: State)
    requires init.Skip? && EvalExpr(e, s) == Res(Normal(v), t, 0, 0) && EvalStmt(Return(e), t).o.Returned?
    ensures EvalBody(Returns(init, e), s) == EvalStmt(Return(e), t)
  {
    assert EvalStmt(init, s) == Res(Normal(Undef), s, 0, 0);
    assert EvalRest(Returns(init, e), s) == EvalStmt(Return(e), t);
  }

  lemma ReturnsPrinted(s: State)
    ensures EvalStmt(Return(CatchUnwrap(Lit(Tagged(1, Undef)), 1, None, Print(Lit(Int(7))))), s) ==
      Res(Returned(NULL), s.(out := s.out + [Int(7)]), 0, 0)
  {
    CatchPrints(s);
  }

  lemma CatchPrints(s: State)
    ensures EvalExpr(CatchUnwrap(Lit(Tagged(1, Undef)), 1, None, Print(Lit(Int(7)))), s) ==
      Res(Normal(NULL), s.(out := s.out + [Int(7)]), 0, 0)
  {
    assert EvalExpr(Lit(Int(7)), s) == Res(Normal(Int(7)), s, 0, 0);
    assert EvalExpr(Lit(Tagged(1, Undef)), s) == Res(Normal(Tagged(1, Undef)), s, 0, 0);
    assert EvalStmt(Print(Lit(Int(7))), s) == Res(Normal(Undef), s.(out := s.out + [Int(7)]), 0, 0);
  }
}
