/** Folding of function-like C macros (src/IRBuilder/IRGen_call.cpp): a recursive
    descent evaluator over tokens, fed by parameter substitution. */
module Macro {
  import Ir
  import opened Wrappers
  import opened Numerals

  // ---------------------------------------------------------------- evaluation

  type Reader = string -> Option<int>

  /** A value and the next position; failure; or a computation C++ leaves undefined
      (signed overflow, division by zero). */
  datatype Outcome = Ok(val: int, pos: nat) | Fail | Undefined

  datatype Op = Plus | Minus | Times | Divide | Modulo

  function OpOf(tok: string): Option<Op> {
    if tok == "+" then Some(Plus) else if tok == "-" then Some(Minus)
    else if tok == "*" then Some(Times) else if tok == "/" then Some(Divide)
    else if tok == "%" then Some(Modulo) else None
  }

  predicate IsMulOp(tok: string) { tok == "*" || tok == "/" || tok == "%" }
  predicate IsAddOp(tok: string) { tok == "+" || tok == "-" }

  function Int64(n: int): Option<int> { if Fits(n) then Some(n) else None }

  /** C's division, which rounds towards zero. */
  function Quot(a: int, b: int): int
    requires b != 0
  {
    if a >= 0 then a / b else -((-a) / b)
  }

  function Rem(a: int, b: int): int
    requires b != 0
  {
    a - Quot(a, b) * b
  }

  /** None where int64 arithmetic is undefined. */
  function Compute(op: Op, a: int, b: int): Option<int> {
    match op
    case Plus => Int64(a + b)
    case Minus => Int64(a - b)
    case Times => Int64(a * b)
    case Divide => if b == 0 then None else Int64(Quot(a, b))
    case Modulo => if b == 0 || !Fits(Quot(a, b)) then None else Some(Rem(a, b))
  }

  /** Bitwise complement in two's complement. */
  function Complement(a: int): int { -a - 1 }

  function Done(v: Option<int>, pos: nat): Outcome {
    match v case None => Undefined case Some(x) => Ok(x, pos)
  }

  function EvalPrimary(read: Reader, toks: seq<string>, pos: nat): (r: Outcome)
    ensures r.Ok? ==> pos < r.pos <= |toks|
    decreases |toks| - pos, 0
  {
    if pos >= |toks| then Fail
    else if toks[pos] == "-" then
      match EvalPrimary(read, toks, pos + 1)
      case Ok(v, p) => Done(Int64(-v), p)
      case x => x
    else if toks[pos] == "~" then
      match EvalPrimary(read, toks, pos + 1)
      case Ok(v, p) => Ok(Complement(v), p)
      case x => x
    else if toks[pos] == "(" then
      match EvalAdd(read, toks, pos + 1)
      case Ok(v, p) => if p >= |toks| || toks[p] != ")" then Fail else Ok(v, p + 1)
      case x => x
    else
      match read(toks[pos])
      case None => Fail
      case Some(v) => Ok(v, pos + 1)
  }

  function EvalMul(read: Reader, toks: seq<string>, pos: nat): (r: Outcome)
    ensures r.Ok? ==> pos < r.pos <= |toks|
    decreases |toks| - pos, 1
  {
    match EvalPrimary(read, toks, pos)
    case Ok(v, p) => MulLoop(read, toks, p, v)
    case x => x
  }

  function MulLoop(read: Reader, toks: seq<string>, pos: nat, val: int): (r: Outcome)
    requires pos <= |toks|
    ensures r.Ok? ==> pos <= r.pos <= |toks|
    decreases |toks| - pos, 0
  {
    if pos < |toks| && IsMulOp(toks[pos]) then
      match EvalPrimary(read, toks, pos + 1)
      case Ok(rhs, p) =>
        (match Compute(OpOf(toks[pos]).value, val, rhs)
         case None => Undefined
         case Some(v) => MulLoop(read, toks, p, v))
      case x => x
    else Ok(val, pos)
  }

  function EvalAdd(read: Reader, toks: seq<string>, pos: nat): (r: Outcome)
    ensures r.Ok? ==> pos < r.pos <= |toks|
    decreases |toks| - pos, 2
  {
    match EvalMul(read, toks, pos)
    case Ok(v, p) => AddLoop(read, toks, p, v)
    case x => x
  }

  function AddLoop(read: Reader, toks: seq<string>, pos: nat, val: int): (r: Outcome)
    requires pos <= |toks|
    ensures r.Ok? ==> pos <= r.pos <= |toks|
    decreases |toks| - pos, 0
  {
    if pos < |toks| && IsAddOp(toks[pos]) then
      match EvalMul(read, toks, pos + 1)
      case Ok(rhs, p) =>
        (match Compute(OpOf(toks[pos]).value, val, rhs)
         case None => Undefined
         case Some(v) => AddLoop(read, toks, p, v))
      case x => x
    else Ok(val, pos)
  }

  // ---------------------------------------------------------------- grammar

  /** A derivation of the expression grammar; Group is a parenthesised expression. */
  datatype Tree =
    | Num(tok: string)
    | Neg(t: Tree)
    | Inv(t: Tree)
    | Group(t: Tree)
    | Bin(op: Op, l: Tree, r: Tree)

  function OpToken(op: Op): string {
    match op
    case Plus => "+" case Minus => "-" case Times => "*" case Divide => "/" case Modulo => "%"
  }

  predicate IsOperator(tok: string) {
    IsMulOp(tok) || IsAddOp(tok) || tok == "~" || tok == "(" || tok == ")"
  }

  predicate Primary(read: Reader, t: Tree)
    decreases t, 0
  {
    match t
    case Num(tok) => !IsOperator(tok) && read(tok).Some?
    case Neg(u) => Primary(read, u)
    case Inv(u) => Primary(read, u)
    case Group(u) => Sum(read, u)
    case Bin(_, _, _) => false
  }

  predicate Term(read: Reader, t: Tree)
    decreases t, 1
  {
    if t.Bin? then IsMulOp(OpToken(t.op)) && Term(read, t.l) && Primary(read, t.r)
    else Primary(read, t)
  }

  /** Sums of terms of primaries, each level associating to the left. */
  predicate Sum(read: Reader, t: Tree)
    decreases t, 2
  {
    if t.Bin? && IsAddOp(OpToken(t.op)) then Sum(read, t.l) && Term(read, t.r)
    else Term(read, t)
  }

  function Yield(t: Tree): (s: seq<string>)
    ensures |s| > 0
  {
    match t
    case Num(tok) => [tok]
    case Neg(u) => ["-"] + Yield(u)
    case Inv(u) => ["~"] + Yield(u)
    case Group(u) => ["("] + Yield(u) + [")"]
    case Bin(op, l, r) => Yield(l) + [OpToken(op)] + Yield(r)
  }

  /** The value of a tree, or None if some operation in it is undefined. */
  function Value(read: Reader, t: Tree): Option<int> {
    match t
    case Num(tok) => read(tok)
    case Neg(u) => var a := Value(read, u); if a.None? then None else Int64(-a.value)
    case Inv(u) => var a := Value(read, u); if a.None? then None else Some(Complement(a.value))
    case Group(u) => Value(read, u)
    case Bin(op, l, r) =>
      var a, b := Value(read, l), Value(read, r);
      if a.None? || b.None? then None else Compute(op, a.value, b.value)
  }

  /** `toks` has `s` at `pos`. */
  ghost predicate Here(toks: seq<string>, pos: nat, s: seq<string>) {
    pos + |s| <= |toks| && toks[pos..pos + |s|] == s
  }

  ghost predicate StartsWith(toks: seq<string>, pos: nat, p: string -> bool) {
    pos < |toks| && p(toks[pos])
  }

  lemma HereSplit(toks: seq<string>, pos: nat, a: seq<string>, b: seq<string>)
    requires Here(toks, pos, a + b)
    ensures Here(toks, pos, a) && Here(toks, pos + |a|, b)
  {
    var s := toks[pos..pos + |a + b|];
    assert s[..|a|] == toks[pos..pos + |a|] && (a + b)[..|a|] == a;
    assert s[|a|..] == toks[pos + |a|..pos + |a| + |b|] && (a + b)[|a|..] == b;
  }

  lemma HereFirst(toks: seq<string>, pos: nat, tok: string, b: seq<string>)
    requires Here(toks, pos, [tok] + b)
    ensures pos < |toks| && toks[pos] == tok && Here(toks, pos + 1, b)
  {
    HereSplit(toks, pos, [tok], b);
    assert toks[pos..pos + 1][0] == tok;
  }

  lemma {:induction false} PrimaryParses(read: Reader, t: Tree, toks: seq<string>, pos: nat)
    requires Primary(read, t) && Here(toks, pos, Yield(t))
    ensures EvalPrimary(read, toks, pos) == Done(Value(read, t), pos + |Yield(t)|)
    decreases t, 0
  {
    hide Compute, Here, Fits, EvalAdd, EvalPrimary;
    match t
    case Num(tok) => NumParses(read, tok, toks, pos);
    case Neg(u) =>
      HereFirst(toks, pos, "-", Yield(u));
      PrimaryParses(read, u, toks, pos + 1);
      SignValue(read, t, u, toks, pos);
    case Inv(u) =>
      HereFirst(toks, pos, "~", Yield(u));
      PrimaryParses(read, u, toks, pos + 1);
      SignValue(read, t, u, toks, pos);
    case Group(u) =>
      GroupSplit(u, toks, pos);
      SumParses(read, u, toks, pos + 1);
      GroupValue(read, u, toks, pos);
  }

  lemma NumParses(read: Reader, tok: string, toks: seq<string>, pos: nat)
    requires !IsOperator(tok) && read(tok).Some? && Here(toks, pos, [tok])
    ensures EvalPrimary(read, toks, pos) == Done(read(tok), pos + 1)
  {
    hide EvalAdd, Here;
    HereFirst(toks, pos, tok, []) by { assert [tok] + [] == [tok]; }
  }

  lemma SignValue(read: Reader, t: Tree, u: Tree, toks: seq<string>, pos: nat)
    requires t == Neg(u) || t == Inv(u)
    requires pos < |toks| && toks[pos] == (if t.Neg? then "-" else "~")
    requires EvalPrimary(read, toks, pos + 1) == Done(Value(read, u), pos + 1 + |Yield(u)|)
    ensures EvalPrimary(read, toks, pos) == Done(Value(read, t), pos + |Yield(t)|)
  {
    hide EvalAdd, Fits;
  }

  lemma GroupValue(read: Reader, u: Tree, toks: seq<string>, pos: nat)
    requires var q := pos + 1 + |Yield(u)|;
      pos < |toks| && toks[pos] == "(" && q < |toks| && toks[q] == ")" && |Yield(Group(u))| == |Yield(u)| + 2
    requires EvalAdd(read, toks, pos + 1) == Done(Value(read, u), pos + 1 + |Yield(u)|)
    ensures EvalPrimary(read, toks, pos) == Done(Value(read, Group(u)), pos + |Yield(Group(u))|)
  {
    hide EvalAdd, Compute;
  }

  lemma GroupSplit(u: Tree, toks: seq<string>, pos: nat)
    requires Here(toks, pos, Yield(Group(u)))
    ensures var q := pos + 1 + |Yield(u)|;
      && pos < |toks| && toks[pos] == "(" && Here(toks, pos + 1, Yield(u)) && q < |toks| && toks[q] == ")"
      && |Yield(Group(u))| == |Yield(u)| + 2
  {
    assert Yield(Group(u)) == ["("] + (Yield(u) + [")"]);
    HereFirst(toks, pos, "(", Yield(u) + [")"]);
    HereSplit(toks, pos + 1, Yield(u), [")"]);
    HereFirst(toks, pos + 1 + |Yield(u)|, ")", []) by { assert [")"] + [] == [")"]; }
  }

  /** Reading a term leaves its value to the loop over what follows it. */
  lemma {:induction false} TermParses(read: Reader, t: Tree, toks: seq<string>, pos: nat)
    requires Term(read, t) && Here(toks, pos, Yield(t))
    ensures EvalMul(read, toks, pos) ==
      match Value(read, t)
      case None => Undefined
      case Some(v) => MulLoop(read, toks, pos + |Yield(t)|, v)
    decreases t, 1
  {
    hide Compute, Here, EvalPrimary, EvalAdd, AddLoop, Primary, Sum, OpToken, OpOf, IsMulOp, IsAddOp, Yield;
    if t.Bin? {
      OpOfToken(t.op);
      TermSplit(t, toks, pos);
      var q := pos + |Yield(t.l)|;
      TermParses(read, t.l, toks, pos);
      PrimaryParses(read, t.r, toks, q + 1);
    } else {
      PrimaryParses(read, t, toks, pos);
    }
  }

  lemma OpOfToken(op: Op)
    ensures OpOf(OpToken(op)) == Some(op)
    ensures IsMulOp(OpToken(op)) <==> !IsAddOp(OpToken(op))
  {
  }

  /** No loop over factors follows a token that is not one of its operators. */
  lemma MulLoopEnds(read: Reader, toks: seq<string>, pos: nat, v: int)
    requires pos <= |toks| && !StartsWith(toks, pos, IsMulOp)
    ensures MulLoop(read, toks, pos, v) == Ok(v, pos)
  {
  }

  /** The parts of a binary operation's tokens. */
  lemma TermSplit(t: Tree, toks: seq<string>, pos: nat)
    requires t.Bin? && Here(toks, pos, Yield(t))
    ensures var q := pos + |Yield(t.l)|;
      && Here(toks, pos, Yield(t.l)) && q < |toks| && toks[q] == OpToken(t.op) && Here(toks, q + 1, Yield(t.r))
      && |Yield(t)| == |Yield(t.l)| + 1 + |Yield(t.r)|
  {
    hide Here, OpToken, Yield;
    var q := pos + |Yield(t.l)|;
    BinYield(t);
    HereSplit(toks, pos, Yield(t.l), [OpToken(t.op)] + Yield(t.r));
    HereFirst(toks, q, OpToken(t.op), Yield(t.r));
  }

  lemma BinYield(t: Tree)
    requires t.Bin?
    ensures Yield(t) == Yield(t.l) + ([OpToken(t.op)] + Yield(t.r))
    ensures |Yield(t)| == |Yield(t.l)| + 1 + |Yield(t.r)|
  {
    hide OpToken;
  }

  lemma {:induction false} SumParsesInto(read: Reader, t: Tree, toks: seq<string>, pos: nat)
    requires Sum(read, t) && Here(toks, pos, Yield(t))
    requires !StartsWith(toks, pos + |Yield(t)|, IsMulOp)
    ensures EvalAdd(read, toks, pos) ==
      match Value(read, t)
      case None => Undefined
      case Some(v) => AddLoop(read, toks, pos + |Yield(t)|, v)
    decreases t, 2
  {
    hide Compute, Here, EvalPrimary, EvalMul, MulLoop, Primary, Term, OpToken, OpOf, IsMulOp, IsAddOp, Yield;
    if t.Bin? && IsAddOp(OpToken(t.op)) {
      OpOfToken(t.op);
      TermSplit(t, toks, pos);
      var q := pos + |Yield(t.l)|;
      SumParsesInto(read, t.l, toks, pos);
      TermParses(read, t.r, toks, q + 1);
      HereEnds(toks, pos, Yield(t));
      var v := Value(read, t.r);
      if v.Some? { MulLoopEnds(read, toks, pos + |Yield(t)|, v.value); }
    } else {
      TermParses(read, t, toks, pos);
      HereEnds(toks, pos, Yield(t));
      var v := Value(read, t);
      if v.Some? { MulLoopEnds(read, toks, pos + |Yield(t)|, v.value); }
    }
  }

  lemma HereEnds(toks: seq<string>, pos: nat, s: seq<string>)
    requires Here(toks, pos, s)
    ensures pos + |s| <= |toks|
  {
  }

  /** The evaluator reads exactly the derivation's tokens and returns its value,
      whatever follows, as long as that is not a binary operator. */
  lemma {:induction false} SumParses(read: Reader, t: Tree, toks: seq<string>, pos: nat)
    requires Sum(read, t) && Here(toks, pos, Yield(t))
    requires !StartsWith(toks, pos + |Yield(t)|, IsMulOp) && !StartsWith(toks, pos + |Yield(t)|, IsAddOp)
    ensures EvalAdd(read, toks, pos) == Done(Value(read, t), pos + |Yield(t)|)
    decreases t, 3
  {
    SumParsesInto(read, t, toks, pos);
  }

  // ---------------------------------------------------------------- converse

  /** Operators are not numbers. */
  ghost predicate Proper(read: Reader) { forall tok | IsOperator(tok) :: read(tok).None? }

  lemma NumbersAreProper()
    ensures Proper(ReadNumber)
  {
    hide ReadNumber;
    forall tok | IsOperator(tok) ensures ReadNumber(tok).None? {
      assert |tok| == 1 && DigitOf(tok[0]) >= 10 && !IsSpace(tok[0]);
      NoDigits(tok);
    }
  }

  /** A single character that is neither digit nor space is no number. */
  lemma NoDigits(tok: string)
    requires |tok| == 1 && DigitOf(tok[0]) >= 10 && !IsSpace(tok[0])
    ensures ReadNumber(tok).None?
  {
    hide Fits, DigitOf, IsSpace, ValueOf;
    assert SkipSpace(tok, 0) == 0;
    assert SkipDigits(tok, 0, 10) == 0 && SkipDigits(tok, 1, 10) == 1;
    assert Stoll(tok, 10).None?;
  }

  /** `t` derives the tokens from `pos` up to the result's position, and has its value. */
  ghost predicate Derives(read: Reader, t: Tree, toks: seq<string>, pos: nat, r: Outcome) {
    r.Ok? && pos <= r.pos <= |toks| && toks[pos..r.pos] == Yield(t) && Value(read, t) == Some(r.val)
  }

  lemma {:induction false} NegDerives(read: Reader, op: string, u: Tree, t: Tree, toks: seq<string>, pos: nat, r: Outcome)
    requires pos < |toks| && toks[pos] == op && Derives(read, u, toks, pos + 1, r)
    requires Yield(t) == [op] + Yield(u) && Value(read, t).Some?
    ensures Derives(read, t, toks, pos, Ok(Value(read, t).value, r.pos))
  {
    hide Value, Yield;
    Joined(toks, pos, pos + 1, r.pos);
    Single(toks, pos);
  }

  lemma GroupDerives(read: Reader, u: Tree, toks: seq<string>, pos: nat, r: Outcome)
    requires pos < |toks| && toks[pos] == "(" && Derives(read, u, toks, pos + 1, r)
    requires r.pos < |toks| && toks[r.pos] == ")"
    ensures Derives(read, Group(u), toks, pos, Ok(r.val, r.pos + 1))
  {
    Joined(toks, pos, pos + 1, r.pos);
    Joined(toks, pos, r.pos, r.pos + 1);
    Single(toks, pos);
    Single(toks, r.pos);
  }

  lemma BinDerives(read: Reader, op: Op, l: Tree, r: Tree, toks: seq<string>, start: nat, a: Outcome, b: Outcome)
    requires Derives(read, l, toks, start, a) && a.pos < |toks| && toks[a.pos] == OpToken(op)
    requires Derives(read, r, toks, a.pos + 1, b) && Compute(op, a.val, b.val).Some?
    ensures Derives(read, Bin(op, l, r), toks, start, Ok(Compute(op, a.val, b.val).value, b.pos))
  {
    hide Compute, OpToken;
    Joined(toks, start, a.pos, b.pos);
    Joined(toks, a.pos, a.pos + 1, b.pos);
    Single(toks, a.pos);
  }

  lemma Joined(toks: seq<string>, i: nat, j: nat, k: nat)
    requires i <= j <= k <= |toks|
    ensures toks[i..k] == toks[i..j] + toks[j..k]
  {
  }

  lemma Single(toks: seq<string>, i: nat)
    requires i < |toks|
    ensures toks[i..i + 1] == [toks[i]]
  {
  }

  lemma {:induction false} PrimaryDerives(read: Reader, toks: seq<string>, pos: nat) returns (t: Tree)
    requires Proper(read)
    requires EvalPrimary(read, toks, pos).Ok?
    ensures Primary(read, t) && Derives(read, t, toks, pos, EvalPrimary(read, toks, pos))
    decreases |toks| - pos, 0
  {
    hide Compute, Fits, Derives;
    if toks[pos] == "-" {
      var u := PrimaryDerives(read, toks, pos + 1);
      t := Neg(u);
      DerivesValue(read, u, toks, pos + 1, EvalPrimary(read, toks, pos + 1));
      NegDerives(read, "-", u, t, toks, pos, EvalPrimary(read, toks, pos + 1));
    } else if toks[pos] == "~" {
      var u := PrimaryDerives(read, toks, pos + 1);
      t := Inv(u);
      DerivesValue(read, u, toks, pos + 1, EvalPrimary(read, toks, pos + 1));
      NegDerives(read, "~", u, t, toks, pos, EvalPrimary(read, toks, pos + 1));
    } else if toks[pos] == "(" {
      var u := SumDerives(read, toks, pos + 1);
      t := Group(u);
      GroupDerives(read, u, toks, pos, EvalAdd(read, toks, pos + 1));
    } else {
      t := Num(toks[pos]);
      NumDerives(read, toks, pos);
    }
  }

  lemma DerivesValue(read: Reader, t: Tree, toks: seq<string>, pos: nat, r: Outcome)
    requires Derives(read, t, toks, pos, r)
    ensures r.Ok? && Value(read, t) == Some(r.val)
  {
  }

  lemma NumDerives(read: Reader, toks: seq<string>, pos: nat)
    requires pos < |toks| && read(toks[pos]).Some?
    ensures Derives(read, Num(toks[pos]), toks, pos, Ok(read(toks[pos]).value, pos + 1))
  {
    Single(toks, pos);
  }

  lemma {:induction false} TermDerives(read: Reader, toks: seq<string>, pos: nat) returns (t: Tree)
    requires Proper(read)
    requires EvalMul(read, toks, pos).Ok?
    ensures Term(read, t) && Derives(read, t, toks, pos, EvalMul(read, toks, pos))
    decreases |toks| - pos, 1
  {
    var p := EvalPrimary(read, toks, pos);
    t := PrimaryDerives(read, toks, pos);
    t := MulLoopDerives(read, toks, pos, p.pos, p.val, t);
  }

  lemma {:induction false} MulLoopDerives(read: Reader, toks: seq<string>, start: nat, pos: nat, val: int, l: Tree)
    returns (t: Tree)
    requires Proper(read)
    requires start <= pos <= |toks| && MulLoop(read, toks, pos, val).Ok?
    requires Term(read, l) && Derives(read, l, toks, start, Ok(val, pos))
    ensures Term(read, t) && Derives(read, t, toks, start, MulLoop(read, toks, pos, val))
    decreases |toks| - pos, 0
  {
    hide Compute, Derives, EvalPrimary, EvalAdd;
    t := l;
    if pos < |toks| && IsMulOp(toks[pos]) {
      var r := PrimaryDerives(read, toks, pos + 1);
      var q := EvalPrimary(read, toks, pos + 1);
      var op := OpOf(toks[pos]).value;
      TokenOfOp(toks[pos]);
      BinDerives(read, op, l, r, toks, start, Ok(val, pos), q);
      t := MulLoopDerives(read, toks, start, q.pos, Compute(op, val, q.val).value, Bin(op, l, r));
    }
  }

  lemma TokenOfOp(tok: string)
    requires OpOf(tok).Some?
    ensures OpToken(OpOf(tok).value) == tok
  {
  }

  lemma {:induction false} SumDerives(read: Reader, toks: seq<string>, pos: nat) returns (t: Tree)
    requires Proper(read)
    requires EvalAdd(read, toks, pos).Ok?
    ensures Sum(read, t) && Derives(read, t, toks, pos, EvalAdd(read, toks, pos))
    decreases |toks| - pos, 2
  {
    var p := EvalMul(read, toks, pos);
    t := TermDerives(read, toks, pos);
    t := AddLoopDerives(read, toks, pos, p.pos, p.val, t);
  }

  lemma {:induction false} AddLoopDerives(read: Reader, toks: seq<string>, start: nat, pos: nat, val: int, l: Tree)
    returns (t: Tree)
    requires Proper(read)
    requires start <= pos <= |toks| && AddLoop(read, toks, pos, val).Ok?
    requires Sum(read, l) && Derives(read, l, toks, start, Ok(val, pos))
    ensures Sum(read, t) && Derives(read, t, toks, start, AddLoop(read, toks, pos, val))
    decreases |toks| - pos, 0
  {
    hide Compute, Derives, EvalPrimary, EvalMul, MulLoop;
    t := l;
    if pos < |toks| && IsAddOp(toks[pos]) {
      var r := TermDerives(read, toks, pos + 1);
      var q := EvalMul(read, toks, pos + 1);
      var op := OpOf(toks[pos]).value;
      TokenOfOp(toks[pos]);
      BinDerives(read, op, l, r, toks, start, Ok(val, pos), q);
      t := AddLoopDerives(read, toks, start, q.pos, Compute(op, val, q.val).value, Bin(op, l, r));
    }
  }

  /** A token list evaluates to `v`, all of it read, exactly when it is the yield of
      a derivation whose value is `v`. */
  lemma AcceptsIffDerivable(read: Reader, toks: seq<string>, v: int)
    requires Proper(read)
    ensures EvalAdd(read, toks, 0) == Ok(v, |toks|)
      <==> exists t :: Sum(read, t) && Yield(t) == toks && Value(read, t) == Some(v)
  {
    hide EvalAdd, Sum, Value, Yield, Proper;
    assert toks[0..|toks|] == toks;
    if EvalAdd(read, toks, 0) == Ok(v, |toks|) {
      var t := SumDerives(read, toks, 0);
    }
    if t :| Sum(read, t) && Yield(t) == toks && Value(read, t) == Some(v) {
      SumParses(read, t, toks, 0);
    }
  }

  // ---------------------------------------------------------------- printing

  /** How deep the three printers below are in their cycle on the same tree. */
  function Rank(t: Tree, level: nat): nat {
    if !t.Bin? then level
    else if IsAddOp(OpToken(t.op)) then (if level == 2 then 0 else level + 1)
    else (if level == 0 then 2 else level - 1)
  }

  /** `t` as a primary, a term, a sum, adding only the parentheses it needs. */
  function AsPrimary(t: Tree): Tree
    decreases t, Rank(t, 0)
  {
    match t
    case Num(_) => t
    case Neg(u) => Neg(AsPrimary(u))
    case Inv(u) => Inv(AsPrimary(u))
    case Group(u) => Group(AsSum(u))
    case Bin(_, _, _) => Group(AsSum(t))
  }

  function AsTerm(t: Tree): Tree
    decreases t, Rank(t, 1)
  {
    if t.Bin? && IsMulOp(OpToken(t.op)) then Bin(t.op, AsTerm(t.l), AsPrimary(t.r)) else AsPrimary(t)
  }

  function AsSum(t: Tree): Tree
    decreases t, Rank(t, 2)
  {
    if t.Bin? && IsAddOp(OpToken(t.op)) then Bin(t.op, AsSum(t.l), AsTerm(t.r)) else AsTerm(t)
  }

  predicate Readable(read: Reader, t: Tree) {
    match t
    case Num(tok) => !IsOperator(tok) && read(tok).Some?
    case Neg(u) => Readable(read, u)
    case Inv(u) => Readable(read, u)
    case Group(u) => Readable(read, u)
    case Bin(_, l, r) => Readable(read, l) && Readable(read, r)
  }

  lemma {:induction false} Printed(read: Reader, t: Tree)
    requires Readable(read, t)
    ensures Primary(read, AsPrimary(t)) && Value(read, AsPrimary(t)) == Value(read, t)
    ensures Term(read, AsTerm(t)) && Value(read, AsTerm(t)) == Value(read, t)
    ensures Sum(read, AsSum(t)) && Value(read, AsSum(t)) == Value(read, t)
    decreases t
  {
    hide Compute, Fits;
    match t
    case Num(_) =>
    case Neg(u) => Printed(read, u);
    case Inv(u) => Printed(read, u);
    case Group(u) => Printed(read, u);
    case Bin(op, l, r) =>
      Printed(read, l);
      Printed(read, r);
      OpOfToken(op);
      if IsAddOp(OpToken(op)) {
        PrintedAdd(read, t);
      } else {
        PrintedMul(read, t);
      }
  }

  lemma PrintedAdd(read: Reader, t: Tree)
    requires t.Bin? && IsAddOp(OpToken(t.op)) && !IsMulOp(OpToken(t.op))
    requires Sum(read, AsSum(t.l)) && Value(read, AsSum(t.l)) == Value(read, t.l)
    requires Term(read, AsTerm(t.r)) && Value(read, AsTerm(t.r)) == Value(read, t.r)
    ensures Sum(read, AsSum(t)) && Value(read, AsSum(t)) == Value(read, t)
    ensures AsTerm(t) == AsPrimary(t) == Group(AsSum(t))
    ensures Primary(read, AsPrimary(t)) && Term(read, AsTerm(t)) && Value(read, AsPrimary(t)) == Value(read, t)
  {
    hide Compute, OpToken, IsAddOp, IsMulOp;
    assert AsSum(t) == Bin(t.op, AsSum(t.l), AsTerm(t.r));
  }

  lemma PrintedMul(read: Reader, t: Tree)
    requires t.Bin? && !IsAddOp(OpToken(t.op)) && IsMulOp(OpToken(t.op))
    requires Term(read, AsTerm(t.l)) && Value(read, AsTerm(t.l)) == Value(read, t.l)
    requires Primary(read, AsPrimary(t.r)) && Value(read, AsPrimary(t.r)) == Value(read, t.r)
    ensures AsSum(t) == AsTerm(t) && AsPrimary(t) == Group(AsSum(t))
    ensures Sum(read, AsSum(t)) && Term(read, AsTerm(t)) && Value(read, AsTerm(t)) == Value(read, t)
    ensures Primary(read, AsPrimary(t)) && Value(read, AsPrimary(t)) == Value(read, t)
  {
    hide Compute, OpToken, IsAddOp, IsMulOp;
    assert AsTerm(t) == Bin(t.op, AsTerm(t.l), AsPrimary(t.r));
  }

  /** Any expression tree, printed with the parentheses precedence and left
      associativity require and followed by no binary operator, is read to the end of
      its print and evaluates to its value; undefined operations stay undefined. */
  lemma PrintEvaluates(read: Reader, t: Tree, pre: seq<string>, rest: seq<string>)
    requires Readable(read, t)
    requires rest != [] ==> !IsMulOp(rest[0]) && !IsAddOp(rest[0])
    ensures var s := Yield(AsSum(t));
      EvalAdd(read, pre + s + rest, |pre|) == Done(Value(read, t), |pre| + |s|)
  {
    hide EvalAdd, Value, Sum, Readable;
    Printed(read, t);
    var s := Yield(AsSum(t));
    assert (pre + s + rest)[|pre|..|pre| + |s|] == s;
    SumParses(read, AsSum(t), pre + s + rest, |pre|);
  }

  // ---------------------------------------------------------------- substitution

  datatype FunctionLikeMacro = FunctionLikeMacro(paramNames: seq<string>, bodyTokens: seq<string>)

  /** The first parameter of that name. */
  function ParamIndex(names: seq<string>, tok: string): (r: Option<nat>)
    ensures r.Some? ==> r.value < |names| && names[r.value] == tok && tok !in names[..r.value]
    ensures r.None? ==> tok !in names
  {
    if names == [] then None
    else if names[0] == tok then Some(0)
    else match ParamIndex(names[1..], tok) case None => None case Some(i) => Some(i + 1)
  }

  function SubstToken(m: FunctionLikeMacro, args: seq<int>, tok: string): string
    requires |args| == |m.paramNames|
  {
    match ParamIndex(m.paramNames, tok) case None => tok case Some(i) => ToString(args[i])
  }

  function ResolveToken(consts: map<string, int>, tok: string): string {
    if tok in consts then ToString(consts[tok]) else tok
  }

  function EvalTokens(m: FunctionLikeMacro, args: seq<int>, consts: map<string, int>): (r: seq<string>)
    requires |args| == |m.paramNames|
    ensures |r| == |m.bodyTokens|
  {
    seq(|m.bodyTokens|, i requires 0 <= i < |m.bodyTokens| =>
      ResolveToken(consts, SubstToken(m, args, m.bodyTokens[i])))
  }

  /** Reading a body token in the environment of the argument values; parameters
      shadow constants. */
  function InEnvironment(m: FunctionLikeMacro, args: seq<int>, consts: map<string, int>): Reader
    requires |args| == |m.paramNames|
  {
    tok =>
      match ParamIndex(m.paramNames, tok)
      case Some(i) => if i < |args| then Some(args[i]) else None
      case None => if tok in consts then Some(consts[tok]) else ReadNumber(tok)
  }

  predicate IsIdentifier(s: string) {
    |s| > 0 && ('a' <= s[0] <= 'z' || 'A' <= s[0] <= 'Z' || s[0] == '_')
  }

  /** What the C front end guarantees of the macro and of the constants. */
  ghost predicate WellFormed(m: FunctionLikeMacro, args: seq<int>, consts: map<string, int>) {
    && |args| == |m.paramNames|
    && (forall a | a in args :: Fits(a))
    && (forall p | p in m.paramNames :: IsIdentifier(p))
    && (forall c | c in consts :: IsIdentifier(c) && Fits(consts[c]))
  }

  /** Two tokens that the evaluator treats alike. */
  ghost predicate Alike(read1: Reader, a: string, read2: Reader, b: string) {
    && read1(a) == read2(b)
    && (IsOperator(a) || IsOperator(b) ==> a == b)
  }

  ghost predicate AllAlike(read1: Reader, s: seq<string>, read2: Reader, t: seq<string>) {
    |s| == |t| && forall i | 0 <= i < |s| :: Alike(read1, s[i], read2, t[i])
  }

  lemma {:induction false} AlikePrimary(read1: Reader, s: seq<string>, read2: Reader, t: seq<string>, pos: nat)
    requires AllAlike(read1, s, read2, t)
    ensures EvalPrimary(read1, s, pos) == EvalPrimary(read2, t, pos)
    decreases |s| - pos, 0
  {
    hide Fits;
    if pos < |s| {
      AlikeToken(read1, s, read2, t, pos);
      if s[pos] == "-" || s[pos] == "~" {
        AlikePrimary(read1, s, read2, t, pos + 1);
      } else if s[pos] == "(" {
        AlikeAdd(read1, s, read2, t, pos + 1);
        var r := EvalAdd(read1, s, pos + 1);
        if r.Ok? && r.pos < |s| { AlikeToken(read1, s, read2, t, r.pos); }
      }
    }
  }

  lemma AlikeToken(read1: Reader, s: seq<string>, read2: Reader, t: seq<string>, pos: nat)
    requires AllAlike(read1, s, read2, t) && pos < |s|
    ensures read1(s[pos]) == read2(t[pos])
    ensures forall op | op in ["-", "~", "(", ")", "+", "*", "/", "%"] :: s[pos] == op <==> t[pos] == op
    ensures IsMulOp(s[pos]) <==> IsMulOp(t[pos])
    ensures IsAddOp(s[pos]) <==> IsAddOp(t[pos])
    ensures IsMulOp(s[pos]) || IsAddOp(s[pos]) ==> s[pos] == t[pos]
    ensures s[pos] == "-" <==> t[pos] == "-"
    ensures s[pos] == "~" <==> t[pos] == "~"
    ensures s[pos] == "(" <==> t[pos] == "("
    ensures s[pos] == ")" <==> t[pos] == ")"
  {
    assert Alike(read1, s[pos], read2, t[pos]);
    if s[pos] != t[pos] {
      assert !IsOperator(s[pos]) && !IsOperator(t[pos]);
    }
  }

  lemma {:induction false} AlikeMulLoop(read1: Reader, s: seq<string>, read2: Reader, t: seq<string>, pos: nat, v: int)
    requires AllAlike(read1, s, read2, t) && pos <= |s|
    ensures MulLoop(read1, s, pos, v) == MulLoop(read2, t, pos, v)
    decreases |s| - pos, 0
  {
    hide EvalPrimary, EvalAdd, Compute, OpOf, IsMulOp, IsAddOp;
    if pos < |s| {
      AlikeToken(read1, s, read2, t, pos);
      if IsMulOp(s[pos]) {
        AlikePrimary(read1, s, read2, t, pos + 1);
        var r := EvalPrimary(read1, s, pos + 1);
        if r.Ok? {
          var c := Compute(OpOf(s[pos]).value, v, r.val) by { IsOp(s[pos]); }
          if c.Some? { AlikeMulLoop(read1, s, read2, t, r.pos, c.value); }
        }
      }
    }
  }

  lemma IsOp(tok: string)
    requires IsMulOp(tok) || IsAddOp(tok)
    ensures OpOf(tok).Some?
  {
  }

  lemma {:induction false} AlikeMul(read1: Reader, s: seq<string>, read2: Reader, t: seq<string>, pos: nat)
    requires AllAlike(read1, s, read2, t)
    ensures EvalMul(read1, s, pos) == EvalMul(read2, t, pos)
    decreases |s| - pos, 1
  {
    hide EvalPrimary, MulLoop, AllAlike;
    AlikePrimary(read1, s, read2, t, pos);
    var r := EvalPrimary(read1, s, pos);
    if r.Ok? { AlikeMulLoop(read1, s, read2, t, r.pos, r.val); }
  }

  lemma {:induction false} AlikeAddLoop(read1: Reader, s: seq<string>, read2: Reader, t: seq<string>, pos: nat, v: int)
    requires AllAlike(read1, s, read2, t) && pos <= |s|
    ensures AddLoop(read1, s, pos, v) == AddLoop(read2, t, pos, v)
    decreases |s| - pos, 0
  {
    hide EvalPrimary, EvalMul, MulLoop, Compute, OpOf, IsMulOp, IsAddOp;
    if pos < |s| {
      AlikeToken(read1, s, read2, t, pos);
      if IsAddOp(s[pos]) {
        AlikeMul(read1, s, read2, t, pos + 1);
        var r := EvalMul(read1, s, pos + 1);
        if r.Ok? {
          var c := Compute(OpOf(s[pos]).value, v, r.val) by { IsOp(s[pos]); }
          if c.Some? { AlikeAddLoop(read1, s, read2, t, r.pos, c.value); }
        }
      }
    }
  }

  lemma {:induction false} AlikeAdd(read1: Reader, s: seq<string>, read2: Reader, t: seq<string>, pos: nat)
    requires AllAlike(read1, s, read2, t)
    ensures EvalAdd(read1, s, pos) == EvalAdd(read2, t, pos)
    decreases |s| - pos, 2
  {
    hide EvalMul, AddLoop, AllAlike;
    AlikeMul(read1, s, read2, t, pos);
    var r := EvalMul(read1, s, pos);
    if r.Ok? { AlikeAddLoop(read1, s, read2, t, r.pos, r.val); }
  }

  lemma NumeralsAreNotNames(n: int)
    ensures !IsIdentifier(ToString(n)) && !IsOperator(ToString(n))
  {
    var t := ToString(n);
    assert n < 0 ==> |t| >= 2;
  }

  lemma NamesAreNotOperators(s: string)
    requires IsIdentifier(s)
    ensures !IsOperator(s)
  {
  }

  lemma SubstitutedToken(m: FunctionLikeMacro, args: seq<int>, consts: map<string, int>, tok: string)
    requires WellFormed(m, args, consts)
    ensures Alike(InEnvironment(m, args, consts), tok,
                  ReadNumber, ResolveToken(consts, SubstToken(m, args, tok)))
  {
    hide ReadNumber, ToString, Fits, IsIdentifier, IsOperator;
    match ParamIndex(m.paramNames, tok)
    case Some(i) =>
      ReadBack(args[i]);
      NumeralsAreNotNames(args[i]);
      NamesAreNotOperators(tok);
    case None =>
      if tok in consts {
        ReadBack(consts[tok]);
        NumeralsAreNotNames(consts[tok]);
        NamesAreNotOperators(tok);
      }
  }

  /** Evaluating the substituted tokens is evaluating the body in the environment of
      the argument values. */
  lemma Substitution(m: FunctionLikeMacro, args: seq<int>, consts: map<string, int>, pos: nat)
    requires WellFormed(m, args, consts)
    ensures EvalAdd(ReadNumber, EvalTokens(m, args, consts), pos)
         == EvalAdd(InEnvironment(m, args, consts), m.bodyTokens, pos)
  {
    hide ReadNumber, EvalAdd, WellFormed, Alike;
    var env, t := InEnvironment(m, args, consts), EvalTokens(m, args, consts) by { ArgsMatch(m, args, consts); }
    forall i | 0 <= i < |t| ensures Alike(env, m.bodyTokens[i], ReadNumber, t[i]) {
      SubstitutedToken(m, args, consts, m.bodyTokens[i]);
    }
    AlikeAdd(env, m.bodyTokens, ReadNumber, t, pos);
  }

  lemma ArgsMatch(m: FunctionLikeMacro, args: seq<int>, consts: map<string, int>)
    requires WellFormed(m, args, consts)
    ensures |args| == |m.paramNames|
  {
  }

  // ---------------------------------------------------------------- folding a call

  /** What a macro call becomes: an i32 constant, an undef value, or whatever the
      compiler's own undefined arithmetic makes of it. */
  datatype Folded = Constant(n: int) | Undef | Unpredictable

  /** Collecting arguments stops at the first that is not a constant. */
  function LeadingConstants(args: seq<Option<int>>): seq<int> {
    if args == [] || args[0].None? then [] else [args[0].value] + LeadingConstants(args[1..])
  }

  function Fold(m: FunctionLikeMacro, args: seq<Option<int>>, consts: map<string, int>): Folded {
    var vals := LeadingConstants(args);
    if |vals| != |m.paramNames| then Undef
    else
      match EvalAdd(ReadNumber, EvalTokens(m, vals, consts), 0)
      case Ok(v, p) => if p == |m.bodyTokens| then Constant(Ir.Wrap32(v)) else Undef
      case Undefined => Unpredictable
      case Fail => Undef
  }

  /** A call folds to a constant exactly when the arguments it needs are constants
      and its body is an expression whose value, with the parameters standing for the
      arguments, is defined; the constant is that value's low 32 bits. */
  lemma FoldsIff(m: FunctionLikeMacro, args: seq<Option<int>>, consts: map<string, int>, n: int)
    requires var vals := LeadingConstants(args); |vals| == |m.paramNames| ==> WellFormed(m, vals, consts)
    ensures Fold(m, args, consts) == Constant(n) <==>
      var vals := LeadingConstants(args);
      && |vals| == |m.paramNames|
      && exists t :: Sum(InEnvironment(m, vals, consts), t) && Yield(t) == m.bodyTokens
           && Value(InEnvironment(m, vals, consts), t).Some?
           && n == Ir.Wrap32(Value(InEnvironment(m, vals, consts), t).value)
  {
    var vals := LeadingConstants(args);
    if |vals| == |m.paramNames| {
      var env := InEnvironment(m, vals, consts);
      if Fold(m, args, consts) == Constant(n) {
        var t := FoldDerives(m, args, consts);
        assert Sum(env, t);
      }
      forall t | Sum(env, t) && Yield(t) == m.bodyTokens && Value(env, t).Some?
        ensures Fold(m, args, consts) == Constant(Ir.Wrap32(Value(env, t).value))
      {
        ValueFolds(m, args, consts, t);
      }
    }
  }

  lemma FoldDerives(m: FunctionLikeMacro, args: seq<Option<int>>, consts: map<string, int>) returns (t: Tree)
    requires WellFormed(m, LeadingConstants(args), consts) && Fold(m, args, consts).Constant?
    ensures var env := InEnvironment(m, LeadingConstants(args), consts);
      && Sum(env, t) && Yield(t) == m.bodyTokens && Value(env, t).Some?
      && Fold(m, args, consts) == Constant(Ir.Wrap32(Value(env, t).value))
  {
    hide ReadNumber, InEnvironment, Ir.Wrap32, EvalAdd;
    var vals := LeadingConstants(args);
    var env := InEnvironment(m, vals, consts);
    Substitution(m, vals, consts, 0);
    EnvironmentIsProper(m, vals, consts);
    t := SumDerives(env, m.bodyTokens, 0);
    assert m.bodyTokens[0..|m.bodyTokens|] == m.bodyTokens;
  }

  /** A body that is an expression folds to its value's low bits, or not at all where
      the value is undefined. */
  lemma ValueFolds(m: FunctionLikeMacro, args: seq<Option<int>>, consts: map<string, int>, t: Tree)
    requires WellFormed(m, LeadingConstants(args), consts)
    requires var env := InEnvironment(m, LeadingConstants(args), consts); Sum(env, t) && Yield(t) == m.bodyTokens
    ensures Fold(m, args, consts) ==
      match Value(InEnvironment(m, LeadingConstants(args), consts), t)
      case None => Unpredictable
      case Some(v) => Constant(Ir.Wrap32(v))
  {
    hide ReadNumber, InEnvironment, Ir.Wrap32, EvalAdd, Yield;
    var vals := LeadingConstants(args);
    Substitution(m, vals, consts, 0);
    assert m.bodyTokens[0..|m.bodyTokens|] == m.bodyTokens;
    SumParses(InEnvironment(m, vals, consts), t, m.bodyTokens, 0);
  }

  lemma EnvironmentIsProper(m: FunctionLikeMacro, args: seq<int>, consts: map<string, int>)
    requires WellFormed(m, args, consts)
    ensures Proper(InEnvironment(m, args, consts))
  {
    NumbersAreProper();
    forall tok | IsOperator(tok) ensures InEnvironment(m, args, consts)(tok).None? {
      if IsIdentifier(tok) { NamesAreNotOperators(tok); }
    }
  }

  // ---------------------------------------------------------------- substituting tokens

  /** How tokens are read that no parameter stands for. */
  function WithConstants(consts: map<string, int>): Reader {
    tok => if tok in consts then Some(consts[tok]) else ReadNumber(tok)
  }

  /** What a preprocessor puts in a token's place: the argument's tokens. */
  function Piece(m: FunctionLikeMacro, args: seq<Tree>, tok: string): (r: seq<string>)
    requires |args| == |m.paramNames|
    ensures |r| > 0
  {
    match ParamIndex(m.paramNames, tok) case None => [tok] case Some(i) => Yield(args[i])
  }

  function Expanded(m: FunctionLikeMacro, args: seq<Tree>, toks: seq<string>): (r: seq<string>)
    requires |args| == |m.paramNames|
    ensures |toks| <= |r|
  {
    if toks == [] then [] else Expanded(m, args, toks[..|toks| - 1]) + Piece(m, args, toks[|toks| - 1])
  }

  /** Where the piece for a token starts. */
  function Offset(m: FunctionLikeMacro, args: seq<Tree>, toks: seq<string>, pos: nat): nat
    requires |args| == |m.paramNames|
  {
    if pos <= |toks| then |Expanded(m, args, toks[..pos])| else |Expanded(m, args, toks)| + (pos - |toks|)
  }

  function Moved(m: FunctionLikeMacro, args: seq<Tree>, toks: seq<string>, r: Outcome): Outcome
    requires |args| == |m.paramNames|
  {
    match r case Ok(v, p) => Ok(v, Offset(m, args, toks, p)) case x => x
  }

  /** Each argument is an expression with the given value that needs no parentheses
      anywhere: a number, a complement, or parentheses already. */
  ghost predicate Arguments(m: FunctionLikeMacro, args: seq<Tree>, vals: seq<int>, consts: map<string, int>) {
    && WellFormed(m, vals, consts) && |args| == |vals|
    && forall i | 0 <= i < |args| ::
      Primary(WithConstants(consts), args[i]) && !args[i].Neg? && Value(WithConstants(consts), args[i]) == Some(vals[i])
  }

  lemma {:induction false} PieceHere(m: FunctionLikeMacro, args: seq<Tree>, toks: seq<string>, pos: nat)
    requires |args| == |m.paramNames| && pos < |toks|
    ensures Here(Expanded(m, args, toks), Offset(m, args, toks, pos), Piece(m, args, toks[pos]))
    ensures Offset(m, args, toks, pos + 1) == Offset(m, args, toks, pos) + |Piece(m, args, toks[pos])|
    decreases |toks|
  {
    hide Piece;
    var n := |toks| - 1;
    var e := Expanded(m, args, toks[..n]);
    assert toks[..pos + 1][..pos] == toks[..pos];
    if pos < n {
      PieceHere(m, args, toks[..n], pos);
      assert toks[..n][..pos] == toks[..pos] && toks[..n][..pos + 1] == toks[..pos + 1];
      HereLonger(e, Piece(m, args, toks[n]), Offset(m, args, toks, pos), Piece(m, args, toks[pos]));
    } else {
      assert toks[..pos] == toks[..n] && toks[..pos + 1] == toks;
    }
  }

  lemma HereLonger(toks: seq<string>, more: seq<string>, pos: nat, s: seq<string>)
    requires Here(toks, pos, s)
    ensures Here(toks + more, pos, s)
  {
    assert (toks + more)[pos..pos + |s|] == toks[pos..pos + |s|];
  }

  lemma FirstOfPrimary(read: Reader, t: Tree)
    requires Primary(read, t) && !t.Neg?
    ensures var tok := Yield(t)[0]; !IsMulOp(tok) && !IsAddOp(tok) && tok != ")"
  {
  }

  /** What the evaluator can see at a token of the body it sees at its piece. */
  lemma AtPiece(m: FunctionLikeMacro, args: seq<Tree>, vals: seq<int>, consts: map<string, int>, pos: nat)
    requires |args| == |m.paramNames| && Arguments(m, args, vals, consts)
    ensures var toks, e, q := m.bodyTokens, Expanded(m, args, m.bodyTokens), Offset(m, args, m.bodyTokens, pos);
      if pos >= |toks| then q >= |e|
      else
        && q < |e|
        && (IsMulOp(toks[pos]) <==> IsMulOp(e[q])) && (IsAddOp(toks[pos]) <==> IsAddOp(e[q]))
        && (toks[pos] == ")" <==> e[q] == ")")
        && (if toks[pos] in m.paramNames then !IsOperator(toks[pos])
            else e[q] == toks[pos] && Offset(m, args, toks, pos + 1) == q + 1)
  {
    hide Primary, Yield, Value, IsMulOp, IsAddOp, IsIdentifier, Fits, ReadNumber, Expanded, Offset;
    var toks := m.bodyTokens;
    if pos < |toks| {
      PieceHere(m, args, toks, pos);
      PieceFirst(m, args, toks, pos);
      match ParamIndex(m.paramNames, toks[pos])
      case Some(i) =>
        FirstOfPrimary(WithConstants(consts), args[i]);
        NamesAreNotOperators(toks[pos]);
        OperatorKinds(toks[pos]);
      case None =>
    } else {
      PastTheEnd(m, args, toks, pos);
    }
  }

  lemma OperatorKinds(tok: string)
    requires !IsOperator(tok)
    ensures !IsMulOp(tok) && !IsAddOp(tok) && tok != ")"
  {
  }

  lemma PieceFirst(m: FunctionLikeMacro, args: seq<Tree>, toks: seq<string>, pos: nat)
    requires |args| == |m.paramNames| && pos < |toks|
    requires Here(Expanded(m, args, toks), Offset(m, args, toks, pos), Piece(m, args, toks[pos]))
    ensures var e, q := Expanded(m, args, toks), Offset(m, args, toks, pos);
      q < |e| && e[q] == Piece(m, args, toks[pos])[0]
  {
    hide Expanded, Offset, Piece;
    var e, q, s := Expanded(m, args, toks), Offset(m, args, toks, pos), Piece(m, args, toks[pos]);
    assert e[q..q + |s|][0] == e[q];
  }

  lemma PastTheEnd(m: FunctionLikeMacro, args: seq<Tree>, toks: seq<string>, pos: nat)
    requires |args| == |m.paramNames| && pos >= |toks|
    ensures Offset(m, args, toks, pos) >= |Expanded(m, args, toks)|
    ensures pos == |toks| ==> Offset(m, args, toks, pos) == |Expanded(m, args, toks)|
  {
    assert toks[..|toks|] == toks;
  }

  lemma {:induction false} MovedPrimary(m: FunctionLikeMacro, args: seq<Tree>, vals: seq<int>, consts: map<string,
                                        int>, pos: nat)
    requires |args| == |m.paramNames| && |vals| == |args| && Arguments(m, args, vals, consts)
    ensures EvalPrimary(WithConstants(consts), Expanded(m, args, m.bodyTokens), Offset(m, args, m.bodyTokens, pos)) ==
      Moved(m, args, m.bodyTokens, EvalPrimary(InEnvironment(m, vals, consts), m.bodyTokens, pos))
    decreases |m.bodyTokens| - pos, 0
  {
    hide Expanded, Offset, Arguments, Fits, ReadNumber, IsMulOp, IsAddOp;
    var toks, env := m.bodyTokens, InEnvironment(m, vals, consts);
    AtPiece(m, args, vals, consts, pos);
    if pos < |toks| {
      if toks[pos] in m.paramNames {
        MovedParameter(m, args, vals, consts, pos);
      } else if toks[pos] == "-" || toks[pos] == "~" {
        MovedPrimary(m, args, vals, consts, pos + 1);
      } else if toks[pos] == "(" {
        MovedAdd(m, args, vals, consts, pos + 1);
        var r := EvalAdd(env, toks, pos + 1);
        if r.Ok? { AtPiece(m, args, vals, consts, r.pos); ClosingIsNoName(m, args, vals, consts); }
      }
    }
  }

  lemma ClosingIsNoName(m: FunctionLikeMacro, args: seq<Tree>, vals: seq<int>, consts: map<string, int>)
    requires Arguments(m, args, vals, consts)
    ensures ")" !in m.paramNames
  {
    if ")" in m.paramNames { NamesAreNotOperators(")"); }
  }

  lemma MovedParameter(m: FunctionLikeMacro, args: seq<Tree>, vals: seq<int>, consts: map<string, int>, pos: nat)
    requires |args| == |m.paramNames| && |vals| == |args| && Arguments(m, args, vals, consts)
    requires pos < |m.bodyTokens| && m.bodyTokens[pos] in m.paramNames && !IsOperator(m.bodyTokens[pos])
    ensures EvalPrimary(WithConstants(consts), Expanded(m, args, m.bodyTokens), Offset(m, args, m.bodyTokens, pos)) ==
      Moved(m, args, m.bodyTokens, EvalPrimary(InEnvironment(m, vals, consts), m.bodyTokens, pos))
  {
    hide Expanded, Offset, Fits, ReadNumber, IsIdentifier, Primary, Value, Yield, EvalAdd, Here;
    var tok := m.bodyTokens[pos];
    var i := ParamIndex(m.paramNames, tok).value;
    PieceHere(m, args, m.bodyTokens, pos);
    PrimaryParses(WithConstants(consts), args[i], Expanded(m, args, m.bodyTokens), Offset(m, args, m.bodyTokens, pos));
  }

  lemma {:induction false} MovedMul(m: FunctionLikeMacro, args: seq<Tree>, vals: seq<int>, consts: map<string, int>,
                                    pos: nat)
    requires |args| == |m.paramNames| && |vals| == |args| && Arguments(m, args, vals, consts)
    ensures EvalMul(WithConstants(consts), Expanded(m, args, m.bodyTokens), Offset(m, args, m.bodyTokens, pos)) ==
      Moved(m, args, m.bodyTokens, EvalMul(InEnvironment(m, vals, consts), m.bodyTokens, pos))
    decreases |m.bodyTokens| - pos, 1
  {
    hide Expanded, Offset, Arguments, EvalPrimary, MulLoop;
    MovedPrimary(m, args, vals, consts, pos);
    var r := EvalPrimary(InEnvironment(m, vals, consts), m.bodyTokens, pos);
    if r.Ok? { MovedMulLoop(m, args, vals, consts, r.pos, r.val); }
  }

  lemma {:induction false} MovedMulLoop(m: FunctionLikeMacro, args: seq<Tree>, vals: seq<int>, consts: map<string, int>,
                                        pos: nat, v: int)
    requires |args| == |m.paramNames| && |vals| == |args| && Arguments(m, args, vals, consts) && pos <= |m.bodyTokens|
    ensures var e, q := Expanded(m, args, m.bodyTokens), Offset(m, args, m.bodyTokens, pos);
      q <= |e| && MulLoop(WithConstants(consts), e, q, v) ==
        Moved(m, args, m.bodyTokens, MulLoop(InEnvironment(m, vals, consts), m.bodyTokens, pos, v))
    decreases |m.bodyTokens| - pos, 0
  {
    hide Expanded, Offset, Arguments, EvalPrimary, EvalAdd, Compute, OpOf, IsMulOp, IsAddOp;
    var toks := m.bodyTokens;
    AtPiece(m, args, vals, consts, pos);
    if pos == |toks| { PastTheEnd(m, args, toks, pos); }
    if pos < |toks| && IsMulOp(toks[pos]) {
      OperatorHere(m, toks[pos]);
      MovedPrimary(m, args, vals, consts, pos + 1);
      var r := EvalPrimary(InEnvironment(m, vals, consts), toks, pos + 1);
      if r.Ok? {
        var c := Compute(OpOf(toks[pos]).value, v, r.val) by { IsOp(toks[pos]); }
        if c.Some? { MovedMulLoop(m, args, vals, consts, r.pos, c.value); }
      }
    }
  }

  lemma OperatorHere(m: FunctionLikeMacro, tok: string)
    requires IsMulOp(tok) || IsAddOp(tok)
    ensures IsOperator(tok)
  {
  }

  lemma {:induction false} MovedAdd(m: FunctionLikeMacro, args: seq<Tree>, vals: seq<int>, consts: map<string, int>,
                                    pos: nat)
    requires |args| == |m.paramNames| && |vals| == |args| && Arguments(m, args, vals, consts)
    ensures EvalAdd(WithConstants(consts), Expanded(m, args, m.bodyTokens), Offset(m, args, m.bodyTokens, pos)) ==
      Moved(m, args, m.bodyTokens, EvalAdd(InEnvironment(m, vals, consts), m.bodyTokens, pos))
    decreases |m.bodyTokens| - pos, 2
  {
    hide Expanded, Offset, Arguments, EvalMul, AddLoop;
    MovedMul(m, args, vals, consts, pos);
    var r := EvalMul(InEnvironment(m, vals, consts), m.bodyTokens, pos);
    if r.Ok? { MovedAddLoop(m, args, vals, consts, r.pos, r.val); }
  }

  lemma {:induction false} MovedAddLoop(m: FunctionLikeMacro, args: seq<Tree>, vals: seq<int>, consts: map<string, int>,
                                        pos: nat, v: int)
    requires |args| == |m.paramNames| && |vals| == |args| && Arguments(m, args, vals, consts) && pos <= |m.bodyTokens|
    ensures var e, q := Expanded(m, args, m.bodyTokens), Offset(m, args, m.bodyTokens, pos);
      q <= |e| && AddLoop(WithConstants(consts), e, q, v) ==
        Moved(m, args, m.bodyTokens, AddLoop(InEnvironment(m, vals, consts), m.bodyTokens, pos, v))
    decreases |m.bodyTokens| - pos, 0
  {
    hide Expanded, Offset, Arguments, EvalPrimary, EvalMul, MulLoop, Compute, OpOf, IsMulOp, IsAddOp;
    var toks := m.bodyTokens;
    AtPiece(m, args, vals, consts, pos);
    if pos == |toks| { PastTheEnd(m, args, toks, pos); }
    if pos < |toks| && IsAddOp(toks[pos]) {
      OperatorHere(m, toks[pos]);
      MovedMul(m, args, vals, consts, pos + 1);
      var r := EvalMul(InEnvironment(m, vals, consts), toks, pos + 1);
      if r.Ok? {
        var c := Compute(OpOf(toks[pos]).value, v, r.val) by { IsOp(toks[pos]); }
        if c.Some? { MovedAddLoop(m, args, vals, consts, r.pos, c.value); }
      }
    }
  }

  /** Substituting the arguments' values is substituting their tokens, as a preprocessor
      does, where no argument needs parentheses: the same value, failure or undefined
      operation, and the same tokens read. */
  lemma ValuesAreTokens(m: FunctionLikeMacro, args: seq<Tree>, vals: seq<int>, consts: map<string, int>)
    requires Arguments(m, args, vals, consts)
    ensures var a := EvalAdd(ReadNumber, EvalTokens(m, vals, consts), 0);
      var b := EvalAdd(WithConstants(consts), Expanded(m, args, m.bodyTokens), 0);
      && b == Moved(m, args, m.bodyTokens, a)
      && (forall v :: a == Ok(v, |m.bodyTokens|) <==> b == Ok(v, |Expanded(m, args, m.bodyTokens)|))
  {
    hide EvalAdd, ReadNumber, EvalTokens, Expanded;
    Substitution(m, vals, consts, 0);
    MovedAdd(m, args, vals, consts, 0);
    assert m.bodyTokens[..0] == [];
    NothingExpanded(m, args);
    var a := EvalAdd(ReadNumber, EvalTokens(m, vals, consts), 0);
    if a.Ok? { WholeBody(m, args, m.bodyTokens, a.pos); }
  }

  lemma NothingExpanded(m: FunctionLikeMacro, args: seq<Tree>)
    requires |args| == |m.paramNames|
    ensures Expanded(m, args, []) == []
  {
  }

  /** Only the body's end is moved to the end of the expanded text. */
  lemma {:induction false} WholeBody(m: FunctionLikeMacro, args: seq<Tree>, toks: seq<string>, pos: nat)
    requires |args| == |m.paramNames| && pos <= |toks|
    ensures Offset(m, args, toks, pos) <= |Expanded(m, args, toks)|
    ensures Offset(m, args, toks, pos) == |Expanded(m, args, toks)| <==> pos == |toks|
    decreases |toks| - pos
  {
    hide Expanded, Piece;
    if pos < |toks| {
      PieceHere(m, args, toks, pos);
      WholeBody(m, args, toks, pos + 1);
    } else {
      PastTheEnd(m, args, toks, pos);
    }
  }

  /** In parentheses any argument will do. */
  lemma ParenthesesWillDo(m: FunctionLikeMacro, args: seq<Tree>, vals: seq<int>, consts: map<string, int>)
    requires WellFormed(m, vals, consts) && |args| == |vals|
    requires forall i | 0 <= i < |args| ::
      Sum(WithConstants(consts), args[i]) && Value(WithConstants(consts), args[i]) == Some(vals[i])
    ensures Arguments(m, seq(|args|, i requires 0 <= i < |args| => Group(args[i])), vals, consts)
  {
    hide Sum, Value, WellFormed;
    forall i | 0 <= i < |args|
      ensures Primary(WithConstants(consts), Group(args[i])) && Value(WithConstants(consts), Group(args[i])) == Some(vals[i])
    {
      GroupIsPrimary(WithConstants(consts), args[i]);
    }
  }

  lemma GroupIsPrimary(read: Reader, t: Tree)
    requires Sum(read, t)
    ensures Primary(read, Group(t)) && Value(read, Group(t)) == Value(read, t)
  {
  }

  /** Without parentheses they differ: with `#define SQ(x) x*x`, SQ(1+2) folds to 9,
      while a preprocessor makes it 1+2*1+2, which is 5. */
  lemma BareTokensDiffer()
    ensures var m := FunctionLikeMacro(["x"], ["x", "*", "x"]);
      && Fold(m, [Some(3)], map[]) == Constant(9)
      && EvalAdd(ReadNumber, ["1", "+", "2", "*", "1", "+", "2"], 0) == Ok(5, 7)
  {
    hide ReadNumber, EvalAdd;
    var m := FunctionLikeMacro(["x"], ["x", "*", "x"]);
    assert Fold(m, [Some(3)], map[]) == Constant(9) by {
      hide Fold, InEnvironment;
      SquareFolds(m);
    }
    ReadDigit(1, "1");
    ReadDigit(2, "2");
    var t := Bin(Plus, Bin(Plus, Num("1"), Bin(Times, Num("2"), Num("1"))), Num("2"));
    var toks := ["1", "+", "2", "*", "1", "+", "2"];
    assert Yield(t.l) == ["1", "+", "2", "*", "1"];
    assert Yield(t) == toks && toks[0..7] == toks;
    assert Value(ReadNumber, t.l) == Some(3);
    SumParses(ReadNumber, t, toks, 0);
  }

  lemma ReadDigit(n: nat, tok: string)
    requires n < 10 && tok == [('0' as int + n) as char]
    ensures ReadNumber(tok) == Some(n) && !IsOperator(tok)
  {
    hide ReadNumber;
    ReadBack(n);
    assert ToString(n) == tok;
  }

  lemma SquareFolds(m: FunctionLikeMacro)
    requires m == FunctionLikeMacro(["x"], ["x", "*", "x"])
    ensures Fold(m, [Some(3)], map[]) == Constant(9)
  {
    hide Fold, ReadNumber;
    var args := [Some(3)];
    assert args[1..] == [] && LeadingConstants(args) == [3] + LeadingConstants([]);
    assert m.paramNames[0] == "x" && m.paramNames[1..] == [];
    var t := Bin(Times, Num("x"), Num("x"));
    assert Yield(t) == m.bodyTokens;
    ValueFolds(m, args, map[], t);
  }

  // ---------------------------------------------------------------- what the operators are

  predicate InInt64(n: int) { -0x8000_0000_0000_0000 <= n <= 0x7fff_ffff_ffff_ffff }

  /** An i32 constant with the low bits of `v`; none where `v` is outside int64. */
  predicate FoldsTo(r: Folded, v: int) {
    if InInt64(v) then r.Constant? && -0x8000_0000 <= r.n < 0x8000_0000 && (r.n - v) % 0x1_0000_0000 == 0
    else r == Unpredictable
  }

  /** `#define M(a, b) a op b` and `#define M(a) op a`, with constant arguments. */
  function FoldBinary(op: string, x: int, y: int): Folded {
    Fold(FunctionLikeMacro(["a", "b"], ["a", op, "b"]), [Some(x), Some(y)], map[])
  }

  function FoldUnary(op: string, x: int): Folded {
    Fold(FunctionLikeMacro(["a"], [op, "a"]), [Some(x)], map[])
  }

  lemma SumsFold(x: int, y: int)
    requires InInt64(x) && InInt64(y)
    ensures FoldsTo(FoldBinary("+", x, y), x + y)
    ensures FoldsTo(FoldBinary("-", x, y), x - y)
  {
    hide Fold, FoldBinary;
    BinaryFolds(Plus, x, y);
    BinaryFolds(Minus, x, y);
  }

  lemma ProductFolds(x: int, y: int)
    requires InInt64(x) && InInt64(y)
    ensures FoldsTo(FoldBinary("*", x, y), x * y)
  {
    hide Fold, FoldBinary;
    BinaryFolds(Times, x, y);
  }

  /** Quotient and remainder as C has them: the remainder is smaller than the divisor
      and has the dividend's sign. Neither is defined for the divisor zero, nor where
      the quotient is outside int64. */
  lemma QuotientFolds(x: int, y: int, q: int, r: int)
    requires InInt64(x) && InInt64(y) && IsQuotient(x, y, q, r)
    ensures FoldsTo(FoldBinary("/", x, y), q)
    ensures if InInt64(q) then FoldsTo(FoldBinary("%", x, y), r) else FoldBinary("%", x, y) == Unpredictable
  {
    hide Fold, FoldBinary, IsQuotient, Compute;
    QuotIs(x, y, q, r);
    BinaryFolds(Divide, x, y);
    BinaryFolds(Modulo, x, y);
  }

  predicate IsQuotient(x: int, y: int, q: int, r: int) {
    x == q * y + r && Magnitude(r) < Magnitude(y) && (x >= 0 ==> r >= 0) && (x <= 0 ==> r <= 0)
  }

  lemma DivisionByZero(x: int)
    requires InInt64(x)
    ensures FoldBinary("/", x, 0) == Unpredictable && FoldBinary("%", x, 0) == Unpredictable
  {
    hide Fold, FoldBinary;
    BinaryFolds(Divide, x, 0);
    BinaryFolds(Modulo, x, 0);
  }

  lemma SignsFold(x: int, n: int)
    requires InInt64(x) && x + n == -1
    ensures FoldsTo(FoldUnary("-", x), -x) && FoldsTo(FoldUnary("~", x), n)
  {
    hide Fold, FoldUnary;
    UnaryFolds(Neg(Num("a")), "-", x);
    UnaryFolds(Inv(Num("a")), "~", x);
  }

  function Magnitude(n: int): nat { if n < 0 then -n else n }

  lemma QuotIs(x: int, y: int, q: int, r: int)
    requires InInt64(y) && IsQuotient(x, y, q, r)
    ensures Compute(Divide, x, y) == Int64(q) && Compute(Modulo, x, y) == if InInt64(q) then Some(r) else None
    ensures InInt64(r)
  {
    if x >= 0 {
      EuclidIs(x, y, q, r);
    } else {
      Negated(q, y);
      EuclidIs(-x, y, -q, -r);
    }
  }

  lemma Negated(q: int, y: int)
    ensures (-q) * y == -(q * y)
  {
  }

  lemma EuclidIs(x: int, y: int, q: int, r: int)
    requires x == q * y + r && 0 <= r < Magnitude(y)
    ensures y != 0 && x / y == q
  {
    var k, s := x / y, x % y;
    assert x == k * y + s;
    Difference(k, q, y);
    if k != q { Bigger(k - q, y); }
  }

  lemma Difference(k: int, q: int, y: int)
    ensures (k - q) * y == k * y - q * y
  {
  }

  lemma Bigger(d: int, y: int)
    requires d != 0
    ensures Magnitude(d * y) >= Magnitude(y)
  {
    if d > 0 { Difference(d, 1, y); } else { Difference(d, -1, y); }
    if d > 0 && y >= 0 { NonNegative(d - 1, y); }
    if d > 0 && y < 0 { NonNegative(d - 1, -y); Negated(d - 1, y); }
    if d < 0 && y >= 0 { NonNegative(-d - 1, y); Negated(d + 1, y); }
    if d < 0 && y < 0 { NonNegative(-d - 1, -y); }
  }

  lemma NonNegative(a: nat, b: nat)
    ensures a * b >= 0
  {
  }

  lemma BinaryFolds(op: Op, x: int, y: int)
    requires InInt64(x) && InInt64(y)
    ensures FoldBinary(OpToken(op), x, y) ==
      match Compute(op, x, y) case None => Unpredictable case Some(v) => Constant(Ir.Wrap32(v))
  {
    hide Fold, ReadNumber, Compute, OpToken, IsMulOp, IsAddOp, Ir.Wrap32;
    var m := FunctionLikeMacro(["a", "b"], ["a", OpToken(op), "b"]);
    var args := [Some(x), Some(y)];
    TwoArguments(x, y);
    assert LeadingConstants(args) == [x, y];
    var env := InEnvironment(m, [x, y], map[]);
    ReadsArguments(m, x, y);
    OpOfToken(op);
    LettersAreNames();
    var t := Bin(op, Num("a"), Num("b"));
    assert Sum(env, t);
    assert Yield(t) == m.bodyTokens;
    assert Value(env, t) == Compute(op, x, y);
    ValueFolds(m, args, map[], t);
    assert FoldBinary(OpToken(op), x, y) == Fold(m, args, map[]);
  }

  lemma LettersAreNames()
    ensures !IsOperator("a") && !IsOperator("b")
  {
  }

  lemma ReadsArguments(m: FunctionLikeMacro, x: int, y: int)
    requires m.paramNames == ["a", "b"]
    ensures var env := InEnvironment(m, [x, y], map[]); env("a") == Some(x) && env("b") == Some(y)
  {
    hide ReadNumber;
    assert m.paramNames[0] == "a" && m.paramNames[1..] == ["b"];
  }

  lemma TwoArguments(x: int, y: int)
    ensures LeadingConstants([Some(x), Some(y)]) == [x, y]
  {
    var args := [Some(x), Some(y)];
    assert args[1..] == [Some(y)] && [Some(y)][1..] == [];
    assert LeadingConstants([Some(y)]) == [y] + LeadingConstants([]);
  }

  lemma UnaryFolds(t: Tree, op: string, x: int)
    requires InInt64(x) && ((t == Neg(Num("a")) && op == "-") || (t == Inv(Num("a")) && op == "~"))
    ensures FoldUnary(op, x) ==
      if t.Inv? then Constant(Ir.Wrap32(Complement(x)))
      else match Int64(-x) case None => Unpredictable case Some(v) => Constant(Ir.Wrap32(v))
  {
    hide Fold, ReadNumber, Complement, Ir.Wrap32, Int64, IsMulOp, IsAddOp;
    var m := FunctionLikeMacro(["a"], [op, "a"]);
    var args := [Some(x)];
    assert args[1..] == [] && LeadingConstants(args) == [x] + LeadingConstants([]);
    assert LeadingConstants(args) == [x];
    var env := InEnvironment(m, [x], map[]);
    assert env("a") == Some(x) by { assert m.paramNames[0] == "a"; }
    LettersAreNames();
    assert Sum(env, t);
    assert Yield(t) == m.bodyTokens;
    assert Value(env, t) == if t.Inv? then Some(Complement(x)) else Int64(-x);
    ValueFolds(m, args, map[], t);
    assert FoldUnary(op, x) == Fold(m, args, map[]);
  }

  // ---------------------------------------------------------------- the evaluator's own loops

  method EvalMacroPrimary(toks: seq<string>, pos: nat) returns (r: Outcome)
    ensures r == EvalPrimary(ReadNumber, toks, pos)
    decreases |toks| - pos, 0
  {
    hide ReadNumber, Fits;
    if pos >= |toks| { return Fail; }
    if toks[pos] == "-" {
      r := EvalMacroPrimary(toks, pos + 1);
      if r.Ok? { r := Done(Int64(-r.val), r.pos); }
      return;
    }
    if toks[pos] == "~" {
      r := EvalMacroPrimary(toks, pos + 1);
      if r.Ok? { r := Ok(Complement(r.val), r.pos); }
      return;
    }
    if toks[pos] == "(" {
      r := EvalMacroAdd(toks, pos + 1);
      if r.Ok? {
        if r.pos >= |toks| || toks[r.pos] != ")" { return Fail; }
        r := Ok(r.val, r.pos + 1);
      }
      return;
    }
    match ReadNumber(toks[pos])
    case None => r := Fail;
    case Some(v) => r := Ok(v, pos + 1);
  }

  method EvalMacroMul(toks: seq<string>, start: nat) returns (r: Outcome)
    ensures r == EvalMul(ReadNumber, toks, start)
    decreases |toks| - start, 1
  {
    hide ReadNumber, Compute, EvalPrimary, EvalAdd;
    r := EvalMacroPrimary(toks, start);
    if !r.Ok? { return; }
    var pos, val := r.pos, r.val;
    while pos < |toks|
      invariant start < pos <= |toks|
      invariant EvalMul(ReadNumber, toks, start) == MulLoop(ReadNumber, toks, pos, val)
      decreases |toks| - pos
    {
      var op := OpOf(toks[pos]);
      if !IsMulOp(toks[pos]) { break; }
      r := EvalMacroPrimary(toks, pos + 1);
      if !r.Ok? { return; }
      var v := Compute(op.value, val, r.val);
      if v.None? { return Undefined; }
      pos, val := r.pos, v.value;
    }
    r := Ok(val, pos);
  }

  method EvalMacroAdd(toks: seq<string>, start: nat) returns (r: Outcome)
    ensures r == EvalAdd(ReadNumber, toks, start)
    decreases |toks| - start, 2
  {
    hide ReadNumber, Compute, EvalPrimary, EvalMul;
    r := EvalMacroMul(toks, start);
    if !r.Ok? { return; }
    var pos, val := r.pos, r.val;
    while pos < |toks|
      invariant start < pos <= |toks|
      invariant EvalAdd(ReadNumber, toks, start) == AddLoop(ReadNumber, toks, pos, val)
      decreases |toks| - pos
    {
      var op := OpOf(toks[pos]);
      if !IsAddOp(toks[pos]) { break; }
      r := EvalMacroMul(toks, pos + 1);
      if !r.Ok? { return; }
      var v := Compute(op.value, val, r.val);
      if v.None? { return Undefined; }
      pos, val := r.pos, v.value;
    }
    r := Ok(val, pos);
  }

  /** The folding branch of visitFnCallExpr: collect, substitute, resolve, evaluate. */
  method VisitMacroCall(m: FunctionLikeMacro, args: seq<Option<int>>, consts: map<string, int>) returns (r: Folded)
    ensures r == Fold(m, args, consts)
  {
    hide EvalAdd, EvalMul, EvalPrimary, ReadNumber, ToString, Ir.Wrap32;
    var vals: seq<int> := [];
    var i := 0;
    while i < |args|
      invariant 0 <= i <= |args|
      invariant LeadingConstants(args) == vals + LeadingConstants(args[i..])
    {
      if args[i].None? { break; }
      vals := vals + [args[i].value];
      assert args[i..][1..] == args[i + 1..];
      i := i + 1;
    }
    assert i < |args| ==> LeadingConstants(args[i..]) == [];
    assert vals == LeadingConstants(args);
    if |vals| != |m.paramNames| { return Undef; }

    var evalTokens: seq<string> := [];
    for k := 0 to |m.bodyTokens|
      invariant |evalTokens| == k
      invariant forall j | 0 <= j < k :: evalTokens[j] == SubstToken(m, vals, m.bodyTokens[j])
    {
      var tok := m.bodyTokens[k];
      var isParam := false;
      var p := 0;
      while p < |m.paramNames| && !isParam
        invariant 0 <= p <= |m.paramNames|
        invariant isParam ==> p < |m.paramNames| && tok == m.paramNames[p]
        invariant tok !in m.paramNames[..p]
        decreases |m.paramNames| - p, !isParam
      {
        if tok == m.paramNames[p] { isParam := true; } else { p := p + 1; }
      }
      FirstIndex(m.paramNames, tok, p, isParam);
      evalTokens := evalTokens + [if isParam then ToString(vals[p]) else tok];
    }

    ghost var substituted := evalTokens;
    for k := 0 to |evalTokens|
      invariant |evalTokens| == |substituted|
      invariant forall j | 0 <= j < k :: evalTokens[j] == ResolveToken(consts, substituted[j])
      invariant forall j | k <= j < |substituted| :: evalTokens[j] == substituted[j]
    {
      if evalTokens[k] in consts {
        evalTokens := evalTokens[k := ToString(consts[evalTokens[k]])];
      }
    }
    assert evalTokens == EvalTokens(m, vals, consts);

    var result := EvalMacroAdd(evalTokens, 0);
    match result
    case Ok(v, pos) => r := if pos == |evalTokens| then Constant(Ir.Wrap32(v)) else Undef;
    case Undefined => r := Unpredictable;
    case Fail => r := Undef;
  }

  /** A search that stopped at the first match, or at the end. */
  lemma FirstIndex(names: seq<string>, tok: string, p: nat, found: bool)
    requires p <= |names| && tok !in names[..p]
    requires if found then p < |names| && names[p] == tok else p == |names|
    ensures ParamIndex(names, tok) == if found then Some(p) else None
  {
  }
}
