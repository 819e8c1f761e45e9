/** The source constructs of structured error control, and what they mean. */
module Source {
  import opened Hashes
  import opened Ir
  import opened Wrappers

  /** How the operand type of `try e or f` was classified (classifyUnwrapCatchEnum). */
  datatype TryKind = Plain | Unwrap(errTag: int)

  /** Names are resolved: a local is a numbered slot. */
  datatype Expr =
    | Lit(v: Value)
    | Var(slot: nat)
    | Add(l: Expr, r: Expr)
    | Try(e: Expr, kind: TryKind, fallback: Option<Expr>)
    | TryUntyped(e: Expr, fallback: Option<Expr>)   // the operand's type is not known
    | CatchUnwrap(e: Expr, errTag: int, it: Option<nat>, block: Stmt)
    | Propagate(e: Expr, errTag: int, carry: Carry, retTag: int, context: Stmt)
    | PropagateVoid(e: Expr, errTag: int, context: Stmt)   // in a function that returns nothing
    | Build(tag: int, payload: Option<Expr>, carry: Carry)
    | MatchOn(e: Expr, on: Kind, arms: seq<Arm>)

  datatype Stmt =
    | Skip
    | Seq(first: Stmt, rest: Stmt)
    | Do(e: Expr)
    | Assign(slot: nat, e: Expr)
    | Print(e: Expr)
    | If(cond: Expr, thn: Stmt, els: Stmt)
    | ThrowStmt(e: Expr, typeName: string, parent: Option<string>, file: string, line: int, column: int)
    | TryCatch(body: Stmt, catches: Catches, final: Stmt)
    | Return(e: Expr)

  datatype Catches = NoMore | Catch(typeName: string, slot: nat, body: Stmt, rest: Catches)

  /** What follows a variant's name in a pattern: nothing, `(x)` or `(_)`. */
  datatype Inner = Absent | Named(slot: nat) | Ignored

  datatype Pattern = Wildcard | Literal(v: Value) | Variant(name: string, inner: Inner)

  /** Statements, then perhaps the value, then statements. */
  datatype Body = Body(pre: Stmt, value: Option<Expr>, post: Stmt)

  /** `-> e`, and `-> { init; e; }`. */
  function Yields(init: Stmt, e: Expr): Body { Body(init, Some(e), Skip) }

  /** `-> { init; ret e; }`: the operand is lowered for its value, and again by the
      return statement. */
  function Returns(init: Stmt, e: Expr): Body { Body(init, Some(e), Return(e)) }

  datatype Arm = Arm(patterns: seq<Pattern>, guard: Option<Expr>, body: Body)

  datatype VariantInfo = VariantInfo(name: string, disc: int, hasPayload: bool)

  /** The matched type: a unit enum is its discriminant, any other value is tagged. */
  datatype Kind = Kind(unit: bool, variants: seq<VariantInfo>)

  // ---------------------------------------------------------------- type hashes

  /** The parent's hash, or 0 for a type that has none. */
  function ParentHash(p: Option<string>): int {
    match p case None => 0 case Some(name) => Fnv(name)
  }

  function ThrowSite(s: Stmt): Site
    requires s.ThrowStmt?
  {
    Site(s.file, s.line, s.column, Fnv(s.typeName), ParentHash(s.parent))
  }

  /** `e` is `e0` as thrown by the statement `t`: the message as it was, the place where
      it was set, else that of the statement, and the static type's hashes. */
  ghost predicate ThrownAs(e: Error, e0: Error, t: Stmt)
    requires t.ThrowStmt?
  {
    && e.message == e0.message
    && (e0.file != "" ==> e.file == e0.file) && (e0.file == "" ==> e.file == t.file)
    && (e0.line != 0 ==> e.line == e0.line) && (e0.line == 0 ==> e.line == t.line)
    && (e0.column != 0 ==> e.column == e0.column) && (e0.column == 0 ==> e.column == t.column)
    && e.typeId == Fnv(t.typeName)
    && (t.parent.Some? ==> e.parentId == Fnv(t.parent.value)) && (t.parent.None? ==> e.parentId == 0)
  }

  /** The test emitted for one catch clause. */
  predicate Matches(typeName: string, e: Error) {
    e.typeId == Fnv(typeName) || e.parentId == Fnv(typeName)
  }

  // ---------------------------------------------------------------- meaning

  datatype State = State(mem: map<nat, Value>, out: seq<Value>) {
    function Slot(x: nat): Value { if x in mem then mem[x] else Undef }
    function Put(x: nat, v: Value): State { this.(mem := mem[x := v]) }
  }

  datatype Outcome =
    | Normal(v: Value)
    | Thrown(e: Error)
    | Returned(v: Value)
    | Hung       // an error no clause of its own try/catch matches
    | Broken     // control reaching a block without terminator or a phi without entry

  /** `leaked` counts the handler frames never freed, `dangling` those that are
      still on the handler stack when the function returns. */
  datatype Res = Res(o: Outcome, s: State, leaked: nat, dangling: nat)

  const NULL := Int(0)

  /** Nothing but a value lets the surrounding construct continue. */
  function Then(r: Res, n: Res): Res { Res(n.o, n.s, r.leaked + n.leaked, n.dangling) }

  function Leave(r: Res, v: Value): Res { r.(o := Returned(v), dangling := 0) }

  /** Leaving a try body by `return` keeps its frame pushed and allocated. */
  function LeaveTry(r: Res): Res {
    if r.o.Returned? then r.(leaked := r.leaked + 1, dangling := r.dangling + 1) else r
  }

  /** Leaving a catch or finally block abruptly keeps the popped frame allocated. */
  function LeaveHandler(r: Res): Res {
    if r.o.Returned? || r.o.Thrown? then r.(leaked := r.leaked + 1) else r
  }

  function EvalExpr(e: Expr, s: State): Res {
    match e
    case Lit(v) => Res(Normal(v), s, 0, 0)
    case Var(x) => Res(Normal(s.Slot(x)), s, 0, 0)
    case Add(l, r) =>
      var a := EvalExpr(l, s);
      if !a.o.Normal? then a else
      var b := EvalExpr(r, a.s);
      if !b.o.Normal? then Then(a, b)
      else Then(a, b.(o := Normal(Apply(Add32, a.o.v, b.o.v))))
    case Try(e1, kind, fb) =>
      var a := EvalExpr(e1, s);
      if a.o.Normal? then
        if kind.Plain? then a
        else if TagOf(a.o.v) == kind.errTag then Then(a, EvalFallback(fb, a.s))
        else a.(o := Normal(PayloadOf(a.o.v)))
      else if a.o.Thrown? then Then(a, EvalFallback(fb, a.s))
      else LeaveTry(a)
    case TryUntyped(e1, fb) =>
      var a := EvalExpr(e1, s);
      if !a.o.Normal? || fb.None? then a else Then(a, EvalExpr(fb.value, a.s))
    case CatchUnwrap(e1, tag, it, block) =>
      var a := EvalExpr(e1, s);
      if !a.o.Normal? then a
      else if TagOf(a.o.v) != tag then a.(o := Normal(PayloadOf(a.o.v)))
      else
        var b := EvalStmt(block, if it.Some? then a.s.Put(it.value, PayloadOf(a.o.v)) else a.s);
        if b.o.Normal? then Then(a, b.(o := Normal(NULL))) else Then(a, b)
    case Propagate(e1, tag, carry, retTag, context) =>
      var a := EvalExpr(e1, s);
      if !a.o.Normal? then a
      else if TagOf(a.o.v) != tag then a.(o := Normal(PayloadOf(a.o.v)))
      else
        var b := EvalStmt(context, a.s);
        if b.o.Normal? then
          Then(a, Leave(b, Tagged(retTag, Carried(carry, PayloadOf(a.o.v)))))
        else Then(a, b)
    case PropagateVoid(e1, tag, context) =>
      var a := EvalExpr(e1, s);
      if !a.o.Normal? then a
      else if TagOf(a.o.v) != tag then a.(o := Normal(Undef))
      else
        var b := EvalStmt(context, a.s);
        if b.o.Normal? then Then(a, Leave(b, Undef)) else Then(a, b)
    case Build(tag, None, carry) => Res(Normal(Tagged(tag, Carried(carry, Undef))), s, 0, 0)
    case Build(tag, Some(e1), carry) =>
      var a := EvalExpr(e1, s);
      if !a.o.Normal? then a else a.(o := Normal(Tagged(tag, Carried(carry, a.o.v))))
    case MatchOn(e1, k, arms) =>
      var a := EvalExpr(e1, s);
      if !a.o.Normal? then a else Then(a, EvalArms(k, arms, a.o.v, a.s))
  }

  function EvalFallback(fb: Option<Expr>, s: State): Res {
    match fb case None => Res(Normal(NULL), s, 0, 0) case Some(e) => EvalExpr(e, s)
  }

  function EvalStmt(st: Stmt, s: State): Res {
    match st
    case Skip => Res(Normal(Undef), s, 0, 0)
    case Seq(a, b) =>
      var r := EvalStmt(a, s);
      if r.o.Normal? then Then(r, EvalStmt(b, r.s)) else r
    case Do(e) =>
      var r := EvalExpr(e, s);
      if r.o.Normal? then r.(o := Normal(Undef)) else r
    case Assign(x, e) =>
      var r := EvalExpr(e, s);
      if r.o.Normal? then r.(o := Normal(Undef), s := r.s.Put(x, r.o.v)) else r
    case Print(e) =>
      var r := EvalExpr(e, s);
      if r.o.Normal? then r.(o := Normal(Undef), s := r.s.(out := r.s.out + [r.o.v])) else r
    case If(c, t, f) =>
      var r := EvalExpr(c, s);
      if !r.o.Normal? then r
      else if Truth(r.o.v) then Then(r, EvalStmt(t, r.s))
      else Then(r, EvalStmt(f, r.s))
    case ThrowStmt(e, _, _, _, _, _) =>
      var r := EvalExpr(e, s);
      if r.o.Normal? then r.(o := Thrown(Stamped(ErrorOf(r.o.v), ThrowSite(st)))) else r
    case TryCatch(body, catches, final) =>
      var r := EvalStmt(body, s);
      if r.o.Normal? then Then(r, LeaveHandler(EvalStmt(final, r.s)))
      else if r.o.Thrown? then
        var h := EvalCatches(catches, r.o.e, r.s);
        if h.None? then
          r.(o := if catches.NoMore? then Broken else Hung)
        else
          var c := h.value;
          if c.o.Normal? then Then(r, Then(c, LeaveHandler(EvalStmt(final, c.s))))
          else Then(r, LeaveHandler(c))
      else LeaveTry(r)
    case Return(e) =>
      var r := EvalExpr(e, s);
      if r.o.Normal? then Leave(r, r.o.v) else r
  }

  /** The first clause in source order that matches, or None. */
  function EvalCatches(cs: Catches, e: Error, s: State): Option<Res> {
    match cs
    case NoMore => None
    case Catch(name, x, body, rest) =>
      if Matches(name, e) then Some(EvalStmt(body, s.Put(x, Err(e))))
      else EvalCatches(rest, e, s)
  }

  // ---------------------------------------------------------------- match

  /** The generator asks the pattern's syntax node for a `_` token, and finds that of
      `V(_)` as well as that of `_`. */
  predicate Wild(p: Pattern) { p.Wildcard? || (p.Variant? && p.inner.Ignored?) }

  predicate HasWildcard(ps: seq<Pattern>) { exists i :: 0 <= i < |ps| && Wild(ps[i]) }

  function Find(vs: seq<VariantInfo>, name: string): Option<VariantInfo> {
    if vs == [] then None else if vs[0].name == name then Some(vs[0]) else Find(vs[1..], name)
  }

  /** A name that is not a variant would be tested as discriminant 0. */
  function Disc(k: Kind, name: string): int {
    match Find(k.variants, name) case Some(v) => v.disc case None => 0
  }

  function FirstNamed(ps: seq<Pattern>): Option<Pattern> {
    if ps == [] then None
    else if ps[0].Variant? && ps[0].inner.Named? then Some(ps[0])
    else FirstNamed(ps[1..])
  }

  /** The local that receives the payload, if any. */
  function BindOf(k: Kind, ps: seq<Pattern>): Option<nat> {
    var p := FirstNamed(ps);
    if HasWildcard(ps) || k.unit || p.None? || !p.value.Variant? || !p.value.inner.Named? then None
    else
      var v := Find(k.variants, p.value.name);
      if v.Some? && v.value.hasPayload then Some(p.value.inner.slot) else None
  }

  predicate Passes(k: Kind, p: Pattern, x: Value) {
    Wild(p) ||
    match p
    case Wildcard => true
    case Literal(v) => x == v
    case Variant(name, _) => if k.unit then x == Int(Disc(k, name)) else TagOf(x) == Disc(k, name)
  }

  predicate AnyPasses(k: Kind, ps: seq<Pattern>, x: Value) {
    exists i :: 0 <= i < |ps| && Passes(k, ps[i], x)
  }

  predicate ArmMatches(k: Kind, a: Arm, x: Value) {
    a.patterns == [] || AnyPasses(k, a.patterns, x)
  }

  function Bound(k: Kind, a: Arm, x: Value, s: State): State {
    var b := BindOf(k, a.patterns);
    if b.Some? then s.Put(b.value, PayloadOf(x)) else s
  }

  function KeepValue(r: Res, x: Value): Res { if r.o.Normal? then r.(o := Normal(x)) else r }

  function EvalBody(b: Body, s: State): Res
    decreases b, 1
  {
    var r := EvalStmt(b.pre, s);
    if r.o.Normal? then Then(r, EvalRest(b, r.s)) else r
  }

  /** A body after its first statements. */
  function EvalRest(b: Body, s: State): Res
    decreases b, 0
  {
    if b.value.None? then KeepValue(EvalStmt(b.post, s), Undef)
    else
      var v := EvalExpr(b.value.value, s);
      if !v.o.Normal? then v else Then(v, KeepValue(EvalStmt(b.post, v.s), v.o.v))
  }

  /** Whether an arm was passed over, after which effects of its guard, or what
      came of taking it. */
  datatype Tried = Missed(g: Res) | Taken(r: Res)

  function TryArm(k: Kind, a: Arm, x: Value, s: State): Tried
    decreases a
  {
    if !ArmMatches(k, a, x) then Missed(Res(Normal(Undef), s, 0, 0))
    else if a.guard.None? then Taken(EvalBody(a.body, Bound(k, a, x, s)))
    else
      var g := EvalExpr(a.guard.value, Bound(k, a, x, s));
      if !g.o.Normal? then Taken(g)
      else if Truth(g.o.v) then Taken(Then(g, EvalBody(a.body, Bound(k, a, x, g.s))))
      else Missed(g)
  }

  /** A match without arms, or one whose last arm's guard fails, leaves no value. */
  function EvalArms(k: Kind, arms: seq<Arm>, x: Value, s: State): Res
    decreases arms
  {
    if arms == [] then Res(Broken, s, 0, 0)
    else
      match TryArm(k, arms[0], x, s)
      case Taken(r) => r
      case Missed(g) =>
        if |arms| > 1 then Then(g, EvalArms(k, arms[1..], x, g.s))
        else if ArmMatches(k, arms[0], x) then g.(o := Broken)
        else g
  }
}
