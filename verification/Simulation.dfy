/** What a simulation of the source by the machine keeps, and what single
    instructions and the emitted pieces do. */
module Simulation {
  import opened Ir
  import opened Source
  import opened Wrappers
  import opened Lowering

  // ---------------------------------------------------------------- invariants

  ghost predicate Live(m: Machine, f: Frame) {
    match f case Pool(i) => i < m.used case Heap(k) => k in m.heap
  }

  /** Every pushed frame is allocated. */
  ghost predicate Inv(m: Machine) {
    && 0 <= m.used <= EH_POOL_SIZE
    && (forall f | f in m.eh :: Live(m, f))
    && (forall k | k in m.heap :: k < m.heapNext)
  }

  /** At the builder's insert point. */
  ghost predicate Ready(c: Code, m: Machine) {
    && c.Valid() && !c.Closed()
    && m.block == c.cur && m.pc == |c.blocks[c.cur]|
  }

  ghost predicate Same(m: Machine, s: State) { m.mem == s.mem && m.out == s.out }

  ghost predicate Reaches(p: Program, m: Machine, n: nat, w: Machine) {
    Run(p, m, n) == Running(w)
  }

  lemma ReachTrans(p: Program, m: Machine, n: nat, w: Machine, k: nat, x: Machine)
    requires Reaches(p, m, n, w) && Reaches(p, w, k, x)
    ensures Reaches(p, m, n + k, x)
  {
    RunSplit(p, m, n, w, k);
  }

  /** Registers below `k`, the handler stack and every older frame are untouched;
      `leak` more frames are allocated. */
  ghost predicate Kept(k: nat, m: Machine, w: Machine, leak: nat) {
    && (forall r | 0 <= r < k :: w.RegVal(r) == m.RegVal(r))
    && w.eh == m.eh
    && (forall f | f in m.eh :: w.Data(f).resume == m.Data(f).resume)
    && m.used <= w.used && m.heap <= w.heap
    && w.used + |w.heap| == m.used + |m.heap| + leak
    && Inv(w)
  }

  lemma KeptTrans(k: nat, m: Machine, w: Machine, l1: nat, k2: nat, x: Machine, l2: nat)
    requires Kept(k, m, w, l1) && Kept(k2, w, x, l2) && k <= k2
    ensures Kept(k, m, x, l1 + l2)
  {
    forall r | 0 <= r < k ensures x.RegVal(r) == m.RegVal(r) {
      assert x.RegVal(r) == w.RegVal(r);
    }
  }

  /** Like Kept, with one more frame `f` allocated, held in register `k`, and still
      on the handler stack if `pushed`. */
  ghost predicate Holding(k: nat, m: Machine, w: Machine, f: Frame, pushed: bool, leak: nat) {
    && (forall r | 0 <= r < k :: w.RegVal(r) == m.RegVal(r))
    && w.RegVal(k) == Handle(f)
    && f !in m.eh
    && w.eh == (if pushed then m.eh + [f] else m.eh)
    && (forall g | g in m.eh :: w.Data(g).resume == m.Data(g).resume)
    && Live(w, f) && (f.Heap? ==> f.id !in m.heap)
    && m.used + (if f.Pool? then 1 else 0) <= w.used && m.heap <= w.heap
    && w.used + |w.heap| == m.used + |m.heap| + 1 + leak
    && Inv(w)
  }

  lemma HoldingKept(k: nat, m: Machine, w: Machine, f: Frame, pushed: bool, l1: nat,
                    k2: nat, x: Machine, l2: nat)
    requires Holding(k, m, w, f, pushed, l1) && Kept(k2, w, x, l2) && k < k2
    ensures Holding(k, m, x, f, pushed, l1 + l2)
    ensures pushed ==> x.Data(f).resume == w.Data(f).resume
  {
    forall r | 0 <= r < k ensures x.RegVal(r) == m.RegVal(r) {
      assert x.RegVal(r) == w.RegVal(r);
    }
    forall g | g in m.eh ensures x.Data(g).resume == m.Data(g).resume {
      assert g in w.eh;
    }
    if pushed { assert f == w.eh[|m.eh|]; }
  }

  // ---------------------------------------------------------------- simulation

  ghost predicate Forever(p: Program, m: Machine) {
    forall j: nat :: Run(p, m, j).Running?
  }

  lemma {:induction false} RunsUpTo(p: Program, m: Machine, n: nat, w: Machine, j: nat)
    requires Reaches(p, m, n, w) && j <= n
    ensures Run(p, m, j).Running?
    decreases j
  {
    if j != 0 { RunsUpTo(p, Step(p, m).m, n - 1, w, j - 1); }
  }

  lemma ForeverAfter(p: Program, m: Machine, n: nat, w: Machine)
    requires Reaches(p, m, n, w) && Forever(p, w)
    ensures Forever(p, m)
  {
    forall j: nat ensures Run(p, m, j).Running? {
      if j <= n {
        RunsUpTo(p, m, n, w, j);
      } else {
        RunSplit(p, m, n, w, j - n);
        assert Run(p, w, j - n).Running?;
      }
    }
  }

  /** After `n` steps from `m` the machine is in `w`, where it continues after the
      construct with its value in `v`, or is about to throw or return; or it never
      stops. */
  ghost predicate Sim(p: Program, k: nat, m: Machine, r: Res, c: Code, v: Operand,
                      n: nat, w: Machine) {
    match r.o
    case Normal(x) =>
      Reaches(p, m, n, w) && Ready(c, w) && w.Val(v) == x && Kept(k, m, w, r.leaked) && Same(w, r.s)
    case Thrown(e) =>
      Reaches(p, m, n, w) && Step(p, w) == Throw(w, e) && Kept(k, m, w, r.leaked) && Same(w, r.s)
    case Returned(x) =>
      && Reaches(p, m, n, w) && Step(p, w) == Done(x, w) && Same(w, r.s)
      && m.eh <= w.eh && |w.eh| == |m.eh| + r.dangling
      && w.used + |w.heap| == m.used + |m.heap| + r.leaked
    case Hung => Forever(p, m)
    case Broken => true
  }

  lemma Chain(p: Program, k: nat, m: Machine, n0: nat, m1: Machine, l: nat,
              k1: nat, r: Res, c: Code, v: Operand, n: nat, w: Machine)
    requires Reaches(p, m, n0, m1) && Kept(k, m, m1, l) && k <= k1
    requires Sim(p, k1, m1, r, c, v, n, w)
    ensures Sim(p, k, m, r.(leaked := l + r.leaked), c, v, n0 + n, w)
  {
    if r.o.Hung? {
      ForeverAfter(p, m, n0, m1);
    } else if !r.o.Broken? {
      ReachTrans(p, m, n0, m1, n, w);
      if r.o.Normal? || r.o.Thrown? { KeptTrans(k, m, m1, l, k1, w, r.leaked); }
    }
  }

  // ---------------------------------------------------------------- single steps

  lemma StepIs(p: Program, c: Code, i: Instr, m: Machine)
    requires Ready(c, m) && Within(Emit(c, i), p)
    ensures Step(p, m) == Exec(i, m)
    ensures Exec(i, m).Running? ==> Reaches(p, m, 1, Exec(i, m).m)
  {
    var d := Emit(c, i);
    assert d.blocks[c.cur] <= p[c.cur];
    assert d.blocks[c.cur][|c.blocks[c.cur]|] == i;
    assert p[c.cur][|c.blocks[c.cur]|] == i;
    if Exec(i, m).Running? {
      assert Run(p, m, 1) == Run(p, Exec(i, m).m, 0);
    }
  }

  lemma NextReady(c: Code, i: Instr, m: Machine, w: Machine)
    requires Ready(c, m) && !IsTerminator(i) && w.block == m.block && w.pc == m.pc + 1
    ensures Ready(Emit(c, i), w)
  {
  }

  lemma OperationRuns(p: Program, c: Code, op: PureOp, a: Operand, b: Operand, m: Machine) returns (w: Machine)
    requires Ready(c, m) && Inv(m) && Within(Operation(c, op, a, b), p)
    ensures w == m.Set(c.next, Apply(op, m.Val(a), m.Val(b)))
    ensures Reaches(p, m, 1, w) && Ready(Operation(c, op, a, b), w) && Kept(c.next, m, w, 0)
    ensures w.RegVal(c.next) == Apply(op, m.Val(a), m.Val(b))
  {
    var i := Pure(c.next, op, a, b);
    w := Exec(i, m).m;
    assert Within(Emit(c, i), p);
    StepIs(p, c, i, m);
    NextReady(c, i, m, w);
  }

  /** Instructions that touch neither registers nor frames. */
  lemma EffectRuns(p: Program, c: Code, i: Instr, m: Machine) returns (w: Machine)
    requires Ready(c, m) && Inv(m) && Within(Emit(c, i), p) && (i.Store? || i.Out?)
    ensures Exec(i, m) == Running(w) && Reaches(p, m, 1, w)
    ensures Ready(Emit(c, i), w) && Kept(c.next, m, w, 0)
  {
    w := Exec(i, m).m;
    StepIs(p, c, i, m);
    NextReady(c, i, m, w);
  }

  lemma LoadRuns(p: Program, c: Code, x: nat, m: Machine) returns (w: Machine)
    requires Ready(c, m) && Inv(m) && Within(Emit(c, Load(c.next, x)).Fresh(), p)
    ensures w == m.Set(c.next, m.Slot(x)) && Reaches(p, m, 1, w)
    ensures Ready(Emit(c, Load(c.next, x)).Fresh(), w) && Kept(c.next, m, w, 0)
  {
    var i := Load(c.next, x);
    w := Exec(i, m).m;
    StepIs(p, c, i, m);
    NextReady(c, i, m, w);
  }

  /** Just after `setjmp`, from which both of its returns continue. */
  ghost predicate Armed(c: Code, w: Machine, f: Frame) {
    c.Valid() && w.Data(f).resume == At(c.cur, |c.blocks[c.cur]| + 3, c.next + 1)
  }

  function EnterCode(k: nat, caught: nat, normal: nat): seq<Instr> {
    [EhAlloc(k), EhPush(Reg(k)), SetJmp(k + 1, Reg(k)),
     Pure(k + 2, IsNonZero, Reg(k + 1), NONE), CondBr(Reg(k + 2), caught, normal)]
  }

  ghost predicate CodeAt(p: Program, b: nat, pc: nat, code: seq<Instr>) {
    b < |p| && pc + |code| <= |p[b]| && p[b][pc..pc + |code|] == code
  }

  lemma StepAt(p: Program, m: Machine, pc: nat, code: seq<Instr>, j: nat)
    requires CodeAt(p, m.block, pc, code) && j < |code| && m.pc == pc + j
    ensures Step(p, m) == Exec(code[j], m)
  {
    assert p[m.block][pc..pc + |code|][j] == code[j];
  }

  lemma EnterPlaced(p: Program, c: Code, k: nat, caught: nat, normal: nat)
    requires c.Valid() && Within(Enter(c, k, caught, normal), p)
    ensures CodeAt(p, c.cur, |c.blocks[c.cur]|, EnterCode(c.next, caught, normal))
  {
    var r := Enter(c, k, caught, normal);
    var code := EnterCode(c.next, caught, normal);
    assert r.blocks[c.cur] == c.blocks[c.cur] + code;
    assert r.blocks[c.cur] <= p[c.cur];
  }

  /** The state after the frame is pushed and setjmp has returned `j`. */
  function Entered(k: nat, m: Machine): Machine {
    var m1 := Alloc(m, k);
    var f := NewFrame(m);
    m1.(eh := m.eh + [f],
        frames := m1.frames[f := FrameData(At(m.block, m.pc + 3, k + 1), NO_ERROR)],
        regs := m1.regs[k + 1 := Int(0)],
        pc := m.pc + 3)
  }

  lemma PushSteps(p: Program, k: nat, caught: nat, normal: nat, m: Machine)
    requires CodeAt(p, m.block, m.pc, EnterCode(k, caught, normal))
    ensures Reaches(p, m, 3, Entered(k, m))
  {
    hide NewFrame;
    var code := EnterCode(k, caught, normal);
    var f := NewFrame(m);
    var m1 := Alloc(m, k);
    StepAt(p, m, m.pc, code, 0);
    StepAt(p, m1, m.pc, code, 1);
    assert m1.RegVal(k) == Handle(f) && m1.Data(f) == FrameData(NoResume, NO_ERROR);
    var m2 := m1.(eh := m.eh + [f], frames := m1.frames[f := FrameData(NoResume, NO_ERROR)]).Next();
    assert Exec(code[1], m1) == Running(m2);
    StepAt(p, m2, m.pc, code, 2);
    assert m2.RegVal(k) == Handle(f) && m2.Data(f) == FrameData(NoResume, NO_ERROR);
    var m3 := Entered(k, m);
    assert m3.frames == m2.frames[f := FrameData(At(m.block, m.pc + 3, k + 1), NO_ERROR)];
    assert Exec(code[2], m2) == Running(m3);
    assert Run(p, m2, 1) == Run(p, m3, 0);
    assert Run(p, m1, 2) == Run(p, m2, 1);
    assert Run(p, m, 3) == Run(p, m1, 2);
  }

  /** Both returns of `setjmp` test its result and branch. */
  lemma TestSteps(p: Program, b: nat, pc: nat, k: nat, caught: nat, normal: nat, m: Machine, j: int)
    returns (w: Machine)
    requires CodeAt(p, b, pc, EnterCode(k, caught, normal))
    requires m.block == b && m.pc == pc + 3 && m.RegVal(k + 1) == Int(j)
    ensures Reaches(p, m, 2, w)
    ensures w == m.(regs := m.regs[k + 2 := Bool(j != 0)], prev := b,
                    block := if j != 0 then caught else normal, pc := 0)
  {
    var code := EnterCode(k, caught, normal);
    StepAt(p, m, pc, code, 3);
    var m1 := m.Set(k + 2, Bool(j != 0));
    assert Exec(code[3], m) == Running(m1);
    StepAt(p, m1, pc, code, 4);
    assert m1.RegVal(k + 2) == Bool(j != 0);
    w := m1.Goto(if j != 0 then caught else normal);
    assert Exec(code[4], m1) == Running(w);
    assert Run(p, m1, 1) == Run(p, w, 0);
    assert Run(p, m, 2) == Run(p, m1, 1);
  }

  lemma EnteredHolds(k: nat, m: Machine)
    requires Inv(m)
    ensures Holding(k, m, Entered(k, m), NewFrame(m), true, 0)
  {
    var f, m1, w := NewFrame(m), Alloc(m, k), Entered(k, m);
    assert m1.RegVal(k) == Handle(f);
    AllocHolds(m, k, m1, f);
    forall g | g in w.eh ensures Live(w, g) {
      if g in m.eh { assert Live(m1, g); } else { assert g == f && Live(m1, f); }
    }
    forall g | g in m.eh ensures w.Data(g).resume == m.Data(g).resume {
      assert g != f;
    }
  }

  /** The machine only moved, or wrote registers above `k`. */
  lemma HoldingMoved(k: nat, m: Machine, w: Machine, f: Frame, pushed: bool, leak: nat, x: Machine)
    requires Holding(k, m, w, f, pushed, leak)
    requires x == w.(regs := x.regs, prev := x.prev, block := x.block, pc := x.pc)
    requires forall r | 0 <= r <= k :: x.RegVal(r) == w.RegVal(r)
    ensures Holding(k, m, x, f, pushed, leak)
  {
  }

  lemma EnterRuns(p: Program, c: Code, k: nat, caught: nat, normal: nat, m: Machine)
    returns (w: Machine, f: Frame)
    requires Ready(c, m) && Inv(m) && Within(Enter(c, k, caught, normal), p)
    ensures Reaches(p, m, 5, w) && Holding(c.next, m, w, f, true, 0) && Armed(c, w, f)
    ensures w.block == normal && w.pc == 0 && w.mem == m.mem && w.out == m.out
  {
    hide Enter, Within, Run, Step, Exec;
    EnterPlaced(p, c, k, caught, normal);
    PushSteps(p, c.next, caught, normal, m);
    var m3 := Entered(c.next, m);
    f := NewFrame(m);
    EnteredHolds(c.next, m);
    w := TestSteps(p, c.cur, m.pc, c.next, caught, normal, m3, 0);
    ReachTrans(p, m, 3, m3, 2, w);
    HoldingMoved(c.next, m, m3, f, true, 0, w);
  }

  lemma AllocHolds(m: Machine, k: nat, w: Machine, f: Frame)
    requires Inv(m) && w == Alloc(m, k) && w.RegVal(k) == Handle(f)
    ensures f !in m.eh && Live(w, f) && (f.Heap? ==> f.id !in m.heap)
    ensures m.used + (if f.Pool? then 1 else 0) == w.used && m.heap <= w.heap
    ensures w.used + |w.heap| == m.used + |m.heap| + 1
    ensures 0 <= w.used <= EH_POOL_SIZE
    ensures forall k | k in w.heap :: k < w.heapNext
    ensures forall g | g in m.eh :: Live(w, g) && w.Data(g) == m.Data(g)
  {
  }

  /** `longjmp` to an armed frame arrives in the caught block. */
  lemma LandRuns(p: Program, c: Code, k: nat, caught: nat, normal: nat, m: Machine, t: Machine,
                 f: Frame, e: Error, leak: nat) returns (w: Machine)
    requires c.Valid() && Within(Enter(c, k, caught, normal), p)
    requires Holding(c.next, m, t, f, true, leak) && Armed(c, t, f)
    requires Step(p, t) == Throw(t, e)
    ensures Reaches(p, t, 3, w) && Holding(c.next, m, w, f, true, leak) && Armed(c, w, f)
    ensures w.block == caught && w.pc == 0 && w.mem == t.mem && w.out == t.out
    ensures w.Data(f).error == e && w.prev == c.cur
    ensures w.regs == t.regs[c.next + 1 := Int(1)][c.next + 2 := Int(1)]
    ensures w == Throw(t, e).m.(regs := w.regs, prev := c.cur, block := caught, pc := 0)
  {
    hide Exec, Within, Inv;
    EnterPlaced(p, c, k, caught, normal);
    assert t.eh[|t.eh| - 1] == f;
    var m1 := Throw(t, e).m;
    assert m1.RegVal(c.next + 1) == Int(1);
    w := TestSteps(p, c.cur, |c.blocks[c.cur]|, c.next, caught, normal, m1, 1);
    assert Run(p, t, 3) == Run(p, m1, 2);
    ThrowHolds(c.next, m, t, f, leak, e);
    HoldingMoved(c.next, m, m1, f, true, leak, w);
  }

  lemma ThrowHolds(k: nat, m: Machine, t: Machine, f: Frame, leak: nat, e: Error)
    requires Holding(k, m, t, f, true, leak)
    requires t.Data(f).resume.At? && t.Data(f).resume.dst == k + 1
    ensures Throw(t, e).Running? && Holding(k, m, Throw(t, e).m, f, true, leak)
  {
    var w := Throw(t, e).m;
    assert t.eh[|t.eh| - 1] == f;
    forall g | g in m.eh ensures w.Data(g).resume == m.Data(g).resume {
      assert g != f;
    }
    forall g | g in w.eh ensures Live(w, g) {
      assert Live(t, g);
    }
  }

  lemma PopRuns(p: Program, c: Code, m: Machine, w: Machine, f: Frame, k: nat, leak: nat)
    returns (x: Machine)
    requires Ready(c, w) && Within(Emit(c, EhPop), p) && Holding(k, m, w, f, true, leak)
    ensures Reaches(p, w, 1, x) && Ready(Emit(c, EhPop), x) && Holding(k, m, x, f, false, leak)
    ensures x == w.(eh := m.eh).Next()
  {
    x := Exec(EhPop, w).m;
    StepIs(p, c, EhPop, w);
    assert w.eh[..|w.eh| - 1] == m.eh;
    NextReady(c, EhPop, w, x);
    forall g | g in x.eh ensures Live(x, g) { assert g in w.eh; }
  }

  lemma FreeRuns(p: Program, c: Code, m: Machine, w: Machine, f: Frame, k: nat, leak: nat)
    returns (x: Machine)
    requires Inv(m) && Ready(c, w) && Within(Emit(c, EhFree(Reg(k))), p) && Holding(k, m, w, f, false, leak)
    ensures Reaches(p, w, 1, x) && Ready(Emit(c, EhFree(Reg(k))), x) && Kept(k, m, x, leak)
    ensures x == w.(used := x.used, heap := x.heap).Next()
  {
    StepIs(p, c, EhFree(Reg(k)), w);
    x := Free(w, f).m;
    NextReady(c, EhFree(Reg(k)), w, x);
    forall g | g in x.eh ensures Live(x, g) { assert Live(m, g) && Live(w, g); }
  }

  lemma PopFreeRuns(p: Program, c: Code, m: Machine, w: Machine, f: Frame, k: nat, leak: nat)
    returns (x: Machine)
    requires Inv(m) && Ready(c, w) && Within(PopFree(c, k), p) && Holding(k, m, w, f, true, leak)
    ensures Reaches(p, w, 2, x) && Ready(PopFree(c, k), x) && Kept(k, m, x, leak)
    ensures x.regs == w.regs && x.mem == w.mem && x.out == w.out
  {
    var d := Emit(c, EhPop);
    assert Grows(d, PopFree(c, k));
    GrowsWithin(d, PopFree(c, k), p);
    var y := PopRuns(p, c, m, w, f, k, leak);
    x := FreeRuns(p, d, m, y, f, k, leak);
    ReachTrans(p, w, 1, y, 1, x);
  }

  /** Jump to an empty block `at` and run the phi at its head. */
  lemma MergeRuns(p: Program, c: Code, d: Code, at: nat, xs: seq<(Operand, nat)>, o: Operand, m: Machine)
    returns (w: Machine)
    requires Ready(c, m) && Inv(m) && Within(Emit(c, Br(at)), p)
    requires at < |d.blocks| && d.blocks[at] == [] && Within(Merge(d, at, xs), p)
    requires Incoming(xs, c.cur) == [o] && c.next <= d.next
    ensures Reaches(p, m, 2, w) && Ready(Merge(d, at, xs), w) && Kept(c.next, m, w, 0)
    ensures w.Val(Reg(d.next)) == m.Val(o) && w.mem == m.mem && w.out == m.out
  {
    StepIs(p, c, Br(at), m);
    var y := m.Goto(at);
    var i := Phi(d.next, xs);
    assert Exec(Br(at), m) == Running(y);
    StepIs(p, d.SetInsert(at), i, y);
    w := y.Set(d.next, m.Val(o));
    assert y.Val(o) == m.Val(o);
    assert Exec(i, y) == Running(w);
    NextReady(d.SetInsert(at), i, y, w);
    ReachTrans(p, m, 1, y, 1, w);
  }

  lemma BranchIs(c: Code, a: Operand, tag: int, k: nat)
    requires c.Valid() && 2 <= k
    ensures var d := Operation(c, GetTag, a, NONE);
      var e := Operation(d, IsEqual, Reg(c.next), Const(Int(tag)));
      BranchOnTag(c, a, tag, k) == Emit(e.NewBlocks(k), CondBr(Reg(c.next + 1), |c.blocks| + 1, |c.blocks|))
  {
  }

  lemma BranchRuns(p: Program, c: Code, a: Operand, tag: int, k: nat, m: Machine) returns (w: Machine)
    requires Ready(c, m) && Inv(m) && Within(BranchOnTag(c, a, tag, k), p) && 2 <= k
    ensures Reaches(p, m, 3, w) && Kept(c.next, m, w, 0) && w.mem == m.mem && w.out == m.out
    ensures w.pc == 0 && w.block == (if TagOf(m.Val(a)) == tag then |c.blocks| + 1 else |c.blocks|)
    ensures w.prev == c.cur
  {
    hide BranchOnTag, Operation, Emit, Within, Inv, Grows, Straight, Run, Step;
    BranchIs(c, a, tag, k);
    var d := Operation(c, GetTag, a, NONE);
    StraightFacts(c, d, 1, 0);
    var e := Operation(d, IsEqual, Reg(c.next), Const(Int(tag)));
    StraightFacts(d, e, 1, 0);
    var f := e.NewBlocks(k);
    var i := CondBr(Reg(c.next + 1), |c.blocks| + 1, |c.blocks|);
    StraightFacts(f, Emit(f, i), 0, 0);
    NewBlocksGrow(e, k);
    GrowsWithin(f, Emit(f, i), p);
    GrowsWithin(e, f, p);
    GrowsWithin(d, e, p);
    var y := OperationRuns(p, c, GetTag, a, NONE, m);
    KeptFacts(c.next, m, y, 0);
    var z := OperationRuns(p, d, IsEqual, Reg(c.next), Const(Int(tag)), y);
    KeptFacts(d.next, y, z, 0);
    StepIs(p, f, i, z);
    w := z.Goto(if TagOf(m.Val(a)) == tag then |c.blocks| + 1 else |c.blocks|);
    ReachTrans(p, m, 1, y, 1, z);
    ReachTrans(p, m, 2, z, 1, w);
    KeptTrans(c.next, m, y, 0, d.next, z, 0);
    MovedKept(c.next, z, w);
    KeptTrans(c.next, m, z, 0, c.next, w, 0);
  }

  // ---------------------------------------------------------------- between instructions

  lemma ValKept(o: Operand, c: Code, m: Machine, w: Machine, leak: nat)
    requires Known(o, c) && Kept(c.next, m, w, leak)
    ensures w.Val(o) == m.Val(o)
  {
  }

  /** At the start of an empty block. */
  lemma StartReady(c: Code, b: nat, m: Machine)
    requires b < |c.blocks| && c.blocks[b] == [] && m.block == b && m.pc == 0
    ensures Ready(c.SetInsert(b), m)
  {
  }

  /** A jump to an empty block. */
  lemma JumpRuns(p: Program, c: Code, at: nat, m: Machine) returns (w: Machine)
    requires Ready(c, m) && Within(Emit(c, Br(at)), p)
    ensures w == m.Goto(at) && Reaches(p, m, 1, w)
  {
    StepIs(p, c, Br(at), m);
    w := m.Goto(at);
  }

  lemma MovedKept(k: nat, m: Machine, w: Machine)
    requires Inv(m) && w == m.(prev := w.prev, block := w.block, pc := w.pc)
    ensures Kept(k, m, w, 0)
  {
  }

  lemma KeptFacts(k: nat, m: Machine, w: Machine, leak: nat)
    requires Kept(k, m, w, leak)
    ensures Inv(w)
  {
  }

  lemma Incoming1(x: (Operand, nat))
    ensures Incoming([x], x.1) == [x.0]
  {
    assert [x][1..] == [];
  }

  lemma Incoming2(x: (Operand, nat), y: (Operand, nat))
    requires x.1 != y.1
    ensures Incoming([x, y], x.1) == [x.0] && Incoming([x, y], y.1) == [y.0]
  {
    assert [x, y][1..] == [y] && [y][1..] == [];
    assert Incoming([y], y.1) == [y.0] + Incoming([], y.1);
    assert Incoming([y], x.1) == [] + Incoming([], x.1);
  }

  lemma Incoming3(x: (Operand, nat), y: (Operand, nat), z: (Operand, nat))
    requires x.1 != y.1 && y.1 != z.1 && z.1 != x.1
    ensures Incoming([x, y, z], x.1) == [x.0]
    ensures Incoming([x, y, z], y.1) == [y.0]
    ensures Incoming([x, y, z], z.1) == [z.0]
  {
    assert [x, y, z][1..] == [y, z];
    Incoming2(y, z);
    assert [y, z][1..] == [z] && [z][1..] == [];
    assert Incoming([z], x.1) == [] + Incoming([], x.1);
    assert Incoming([y, z], x.1) == [];
  }
}
