/** The target of lowering: basic blocks over virtual registers, and the machine
    that runs them together with the exception-handler runtime
    (src/builtins/error/error.c). Pointers to an error are modelled by the error
    they point to; an alloca by a numbered memory slot. */
module Ir {
  import opened EnumValues
  import opened Wrappers

  /** The runtime's error record. `typeId` and `parentId` are type-name hashes. */
  datatype Error = Error(message: string, file: string, line: int, column: int,
                         typeId: int, parentId: int)

  /** What `memset` leaves in a pushed frame. */
  const NO_ERROR := Error("", "", 0, 0, 0, 0)

  /** A handler frame lives in the fixed pool or, once that is used up, on the heap. */
  datatype Frame = Pool(slot: nat) | Heap(id: nat)

  datatype Value =
    | Undef
    | Int(n: int)
    | Tagged(tag: int, payload: Value)
    | Err(error: Error)
    | Handle(frame: Frame)
    | Struct(vals: seq<nat>)   // of integers

  datatype Operand = Const(v: Value) | Reg(r: nat)

  datatype Site = Site(file: string, line: int, column: int, typeId: int, parentId: int)

  datatype Instr =
    | EhAlloc(dst: nat)
    | EhPush(frame: Operand)
    | EhPop
    | EhFree(frame: Operand)
    | EhGetError(dst: nat, frame: Operand)
    | EhSetError(frame: Operand, err: Operand)
    | SetJmp(dst: nat, frame: Operand)
    | EhThrow(err: Operand)
    | Load(dst: nat, slot: nat)
    | Store(slot: nat, a: Operand)
    | Out(a: Operand)
    | Pure(dst: nat, op: PureOp, a: Operand, b: Operand)
    | Phi(dst: nat, incoming: seq<(Operand, nat)>)
    | Br(target: nat)
    | CondBr(cond: Operand, yes: nat, no: nat)
    | Ret(a: Operand)
    | Unreachable

  /** Register-to-register instructions. */
  datatype PureOp = Add32 | IsNonZero | IsEqual | Or | GetTag | GetPayload | BuildTagged(carry: Carry)
                  | GetTypeId | GetParentId | Stamp(site: Site)

  const EH_POOL_SIZE := 16

  /** Where an enum value keeps a variant's payload: nowhere; in a field of its own,
      as `!T` does; or in the storage all variants share. */
  datatype Carry = NoPayload | OwnField | InStorage(layout: Layout)

  // ---------------------------------------------------------------- values

  function Bool(b: bool): Value { Int(if b then 1 else 0) }

  function Truth(v: Value): bool { v.Int? && v.n != 0 }

  /** Two's complement wrap-around of a 32-bit addition. */
  function Wrap32(n: int): int {
    (n + 0x8000_0000) % 0x1_0000_0000 - 0x8000_0000
  }

  function TagOf(v: Value): int { if v.Tagged? then v.tag else 0 }

  function PayloadOf(v: Value): Value { if v.Tagged? then v.payload else Undef }

  function IntOf(v: Value): int { if v.Int? then v.n else 0 }

  function ErrorOf(v: Value): Error { if v.Err? then v.error else NO_ERROR }

  /** The integers a payload is stored as. */
  function Image(l: Layout, v: Value): Option<seq<nat>> {
    if !l.Valid() then None
    else if v.Struct? && Fit(l.payload, v.vals) then Some(v.vals)
    else if v.Int? && l.payload == [4] && v.n == Wrap32(v.n) then Some([v.n % 0x1_0000_0000])
    else None
  }

  function FromImage(v: Value, vals: seq<nat>): Value {
    if v.Int? && |vals| == 1 then Int(Wrap32(vals[0])) else Struct(vals)
  }

  /** What is left of a payload that was put into an enum value. An error or another
      enum value is taken as a whole. */
  function Carried(c: Carry, v: Value): Value {
    match c
    case NoPayload => Undef
    case OwnField => v
    case InStorage(l) =>
      match Image(l, v)
      case None => if l.Survives() then v else Undef
      case Some(vals) =>
        ImageFits(l, v);
        match RoundTrip(l.storage, l.payload, vals)
        case Some(back) => FromImage(v, back)
        case None => Undef
  }

  lemma ImageFits(l: Layout, v: Value)
    requires Image(l, v).Some?
    ensures l.Valid() && Fit(l.payload, Image(l, v).value) && |l.payload| == |Image(l, v).value|
    ensures FromImage(v, Image(l, v).value) == v
  {
    hide Pow256, Wrap32;
    if v.Int? {
      FourBytes(v.n % 0x1_0000_0000);
      WrapAgain(v.n);
    }
  }

  lemma WrapAgain(n: int)
    ensures Wrap32(n % 0x1_0000_0000) == Wrap32(n)
  {
  }

  lemma FourBytes(n: nat)
    requires n < 0x1_0000_0000
    ensures Fit([4], [n])
  {
    assert Pow256(4) == 256 * Pow256(3) && Pow256(3) == 256 * Pow256(2) && Pow256(2) == 256 * Pow256(1);
  }

  /** A payload comes back whole or not at all: it does exactly when each of its bytes
      is a byte of some field of the storage. */
  lemma CarriedIs(l: Layout, v: Value)
    ensures Carried(InStorage(l), v) == if l.Survives() then v else Undef
  {
    hide RoundTrip, FromImage, Image, Fit;
    var vals := Image(l, v);
    if vals.Some? {
      ImageFits(l, v);
      SurvivesIff(l, vals.value);
    }
  }

  /** visitThrowStmt: type ids always come from the throw site, the location
      only where the thrown value left it empty. */
  function Stamped(e: Error, s: Site): Error {
    Error(e.message,
          if e.file == "" then s.file else e.file,
          if e.line == 0 then s.line else e.line,
          if e.column == 0 then s.column else e.column,
          s.typeId, s.parentId)
  }

  function Apply(op: PureOp, a: Value, b: Value): Value {
    match op
    case Add32 => Int(Wrap32(IntOf(a) + IntOf(b)))
    case IsNonZero => Bool(Truth(a))
    case IsEqual => Bool(a == b)
    case Or => Bool(Truth(a) || Truth(b))
    case GetTag => Int(TagOf(a))
    case GetPayload => PayloadOf(a)
    case BuildTagged(carry) => Tagged(IntOf(a), Carried(carry, b))
    case GetTypeId => Int(ErrorOf(a).typeId)
    case GetParentId => Int(ErrorOf(a).parentId)
    case Stamp(s) => Err(Stamped(ErrorOf(a), s))
  }

  // ---------------------------------------------------------------- machine

  /** Where `longjmp` resumes: just after the `setjmp`, with 1 in its result. */
  datatype Resume = NoResume | At(block: nat, pc: nat, dst: nat)

  datatype FrameData = FrameData(resume: Resume, error: Error)

  datatype Machine = Machine(
    prev: nat, block: nat, pc: nat,
    regs: map<nat, Value>,
    mem: map<nat, Value>,
    out: seq<Value>,
    eh: seq<Frame>,               // handler stack, innermost last
    frames: map<Frame, FrameData>,
    used: int,                    // eh_pool_used
    heap: set<nat>,               // frames calloc'ed and not yet freed
    heapNext: nat)
  {
    function Slot(x: nat): Value { if x in mem then mem[x] else Undef }

    function RegVal(r: nat): Value { if r in regs then regs[r] else Undef }

    function Val(o: Operand): Value {
      match o case Const(v) => v case Reg(r) => RegVal(r)
    }

    function Data(f: Frame): FrameData {
      if f in frames then frames[f] else FrameData(NoResume, NO_ERROR)
    }

    function Next(): Machine { this.(pc := pc + 1) }

    function Set(r: nat, v: Value): Machine { this.(regs := regs[r := v], pc := pc + 1) }

    function Goto(b: nat): Machine { this.(prev := block, block := b, pc := 0) }
  }

  datatype Status =
    | Running(m: Machine)
    | Done(v: Value, m: Machine)   // the function returned
    | Aborted(e: Error)            // "unhandled error", exit(1)
    | Stuck                        // undefined behaviour or malformed IR

  /** lucis_eh_throw: store the error in the innermost frame and longjmp to it. */
  function Throw(m: Machine, e: Error): Status {
    if m.eh == [] then Aborted(e)
    else
      var f := m.eh[|m.eh| - 1];
      var d := m.Data(f);
      match d.resume
      case NoResume => Stuck
      case At(b, p, r) =>
        Running(m.(frames := m.frames[f := FrameData(d.resume, e)],
                   regs := m.regs[r := Int(1)], block := b, pc := p))
  }

  /** lucis_eh_alloc: pool slots are handed out in order, then the heap. */
  function NewFrame(m: Machine): Frame {
    if m.used < EH_POOL_SIZE then Pool(if m.used < 0 then 0 else m.used) else Heap(m.heapNext)
  }

  function Alloc(m: Machine, dst: nat): Machine {
    var f := NewFrame(m);
    var m1 := m.(frames := m.frames[f := FrameData(NoResume, NO_ERROR)]).Set(dst, Handle(f));
    if f.Pool? then m1.(used := m.used + 1)
    else m1.(heap := m.heap + {m.heapNext}, heapNext := m.heapNext + 1)
  }

  /** lucis_eh_free: a pool frame only lowers the counter; freeing a heap frame
      twice, or a pool frame when none is in use, is an error. */
  function Free(m: Machine, f: Frame): Status {
    match f
    case Pool(_) => if m.used <= 0 then Stuck else Running(m.(used := m.used - 1).Next())
    case Heap(k) => if k !in m.heap then Stuck else Running(m.(heap := m.heap - {k}).Next())
  }

  function Incoming(xs: seq<(Operand, nat)>, prev: nat): seq<Operand> {
    if xs == [] then []
    else (if xs[0].1 == prev then [xs[0].0] else []) + Incoming(xs[1..], prev)
  }

  function Exec(i: Instr, m: Machine): Status {
    match i
    case EhAlloc(r) => Running(Alloc(m, r))
    case EhPush(o) =>
      var v := m.Val(o);
      if !v.Handle? then Stuck
      else Running(m.(eh := m.eh + [v.frame],
                      frames := m.frames[v.frame := m.Data(v.frame).(error := NO_ERROR)]).Next())
    case EhPop => Running(if m.eh == [] then m.Next() else m.(eh := m.eh[..|m.eh| - 1]).Next())
    case EhFree(o) => var v := m.Val(o); if v.Handle? then Free(m, v.frame) else Stuck
    case EhGetError(r, o) =>
      var v := m.Val(o);
      if v.Handle? then Running(m.Set(r, Err(m.Data(v.frame).error))) else Stuck
    case EhSetError(o, a) =>
      var v := m.Val(o);
      if !v.Handle? then Stuck
      else Running(m.(frames := m.frames[v.frame := m.Data(v.frame).(error := ErrorOf(m.Val(a)))]).Next())
    case SetJmp(r, o) =>
      var v := m.Val(o);
      if !v.Handle? then Stuck
      else Running(m.(frames := m.frames[v.frame :=
                        m.Data(v.frame).(resume := At(m.block, m.pc + 1, r))]).Set(r, Int(0)))
    case EhThrow(a) => Throw(m, ErrorOf(m.Val(a)))
    case Load(r, x) => Running(m.Set(r, m.Slot(x)))
    case Store(x, a) => Running(m.(mem := m.mem[x := m.Val(a)]).Next())
    case Out(a) => Running(m.(out := m.out + [m.Val(a)]).Next())
    case Pure(r, op, a, b) => Running(m.Set(r, Apply(op, m.Val(a), m.Val(b))))
    case Phi(r, xs) =>
      var vs := Incoming(xs, m.prev);
      if |vs| == 1 then Running(m.Set(r, m.Val(vs[0]))) else Stuck
    case Br(b) => Running(m.Goto(b))
    case CondBr(c, y, n) => Running(m.Goto(if Truth(m.Val(c)) then y else n))
    case Ret(a) => Done(m.Val(a), m)
    case Unreachable => Stuck
  }

  type Program = seq<seq<Instr>>

  /** One step; running past the end of a block without a terminator is an error. */
  function Step(p: Program, m: Machine): Status {
    if m.block < |p| && m.pc < |p[m.block]| then Exec(p[m.block][m.pc], m) else Stuck
  }

  function Run(p: Program, m: Machine, n: nat): Status
    decreases n
  {
    if n == 0 then Running(m)
    else
      match Step(p, m)
      case Running(m1) => Run(p, m1, n - 1)
      case s => s
  }

  lemma {:induction false} RunSplit(p: Program, m: Machine, n: nat, m1: Machine, k: nat)
    requires Run(p, m, n) == Running(m1)
    ensures Run(p, m, n + k) == Run(p, m1, k)
    decreases n
  {
    hide Exec;
    if n != 0 {
      RunSplit(p, Step(p, m).m, n - 1, m1, k);
    }
  }

  // ---------------------------------------------------------------- builder state

  /** The module under construction: blocks in order of creation, the insert
      block, and the next unused register. */
  datatype Code = Code(blocks: seq<seq<Instr>>, cur: nat, next: nat) {
    ghost predicate Valid() { cur < |blocks| }

    function Emit(i: Instr): (c: Code)
      requires cur < |blocks|
      ensures c.cur == cur && |c.blocks| == |blocks|
    {
      Code(blocks[cur := blocks[cur] + [i]], cur, next)
    }

    /** Emit an instruction whose result is the next register. */
    function Fresh(): Code { this.(next := next + 1) }

    function NewBlocks(k: nat): (c: Code)
      ensures |c.blocks| == |blocks| + k
      ensures forall b | 0 <= b < |blocks| :: c.blocks[b] == blocks[b]
      ensures forall b | |blocks| <= b < |blocks| + k :: c.blocks[b] == []
      ensures c.cur == cur && c.next == next
    {
      Code(blocks + seq(k, _ => []), cur, next)
    }

    function SetInsert(b: nat): Code { this.(cur := b) }

    /** LLVM's getTerminator() on the insert block. */
    predicate Closed()
      requires cur < |blocks|
    {
      |blocks[cur]| > 0 && IsTerminator(blocks[cur][|blocks[cur]| - 1])
    }
  }

  predicate IsTerminator(i: Instr) {
    i.Br? || i.CondBr? || i.Ret? || i.Unreachable?
  }

  /** `b` was reached from `a` by emitting into `a`'s insert block and into blocks
      created since; every other block is untouched. */
  ghost predicate Grows(a: Code, b: Code) {
    && a.Valid() && b.Valid()
    && |a.blocks| <= |b.blocks|
    && a.next <= b.next
    && (b.cur == a.cur || |a.blocks| <= b.cur)
    && a.blocks[a.cur] <= b.blocks[a.cur]
    && (forall i | 0 <= i < |a.blocks| && i != a.cur :: b.blocks[i] == a.blocks[i])
  }

  /** The finished program contains everything emitted so far. */
  ghost predicate Within(c: Code, p: Program) {
    && |c.blocks| <= |p|
    && forall i | 0 <= i < |c.blocks| :: c.blocks[i] <= p[i]
  }

  lemma WithinMoved(c: Code, b: nat, p: Program)
    ensures Within(c.SetInsert(b), p) == Within(c, p)
  {
  }

  lemma GrowsWithin(a: Code, b: Code, p: Program)
    requires Grows(a, b) && Within(b, p)
    ensures Within(a, p)
  {
    forall i | 0 <= i < |a.blocks| ensures a.blocks[i] <= p[i] {
      assert a.blocks[i] <= b.blocks[i] <= p[i];
    }
  }
}
