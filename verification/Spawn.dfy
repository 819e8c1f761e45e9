/** Spawn and await (src/IRBuilder/IRGen_flow.cpp, src/builtins/thread/thread.c): the
    arguments travel in a heap block to a trampoline, the result travels back in
    another. Every thread takes its steps in any order. */
module Spawn {
  import opened Wrappers

  // ---------------------------------------------------------------- emitted code

  datatype SpawnOp = MallocArgs | StoreField(i: nat) | TaskCreate

  datatype TaskOp = LoadField(i: nat) | FreeArgs | CallTarget | MallocResult | StoreResult | Exit

  datatype AwaitOp = Join | LoadValue | FreeResult | FreeTask

  /** The spawn site. No argument, no block. */
  function SpawnSite(n: nat): seq<SpawnOp> {
    (if n == 0 then [] else [MallocArgs] + seq(n, i requires 0 <= i < n => StoreField(i))) + [TaskCreate]
  }

  function Trampoline(n: nat, isVoid: bool): seq<TaskOp> {
    seq(n, i requires 0 <= i < n => LoadField(i)) + (if n == 0 then [] else [FreeArgs]) + [CallTarget] +
    (if isVoid then [] else [MallocResult, StoreResult]) + [Exit]
  }

  /** `typed`: the operand is a local whose Task type names a non-void element. */
  function AwaitSite(typed: bool): seq<AwaitOp> {
    [Join] + (if typed then [LoadValue, FreeResult] else []) + [FreeTask]
  }

  method EmitSpawn(n: nat, isVoid: bool) returns (site: seq<SpawnOp>, trampoline: seq<TaskOp>)
    ensures site == SpawnSite(n) && trampoline == Trampoline(n, isVoid)
  {
    site := [];
    if n != 0 {
      site := [MallocArgs];
      for i := 0 to n
        invariant site == [MallocArgs] + seq(i, k requires 0 <= k < i => StoreField(k))
      {
        site := site + [StoreField(i)];
      }
    }
    trampoline := [];
    if n != 0 {
      for i := 0 to n
        invariant trampoline == seq(i, k requires 0 <= k < i => LoadField(k))
      {
        trampoline := trampoline + [LoadField(i)];
      }
      trampoline := trampoline + [FreeArgs];
    }
    trampoline := trampoline + [CallTarget];
    if !isVoid {
      trampoline := trampoline + [MallocResult, StoreResult];
    }
    trampoline := trampoline + [Exit];
    site := site + [TaskCreate];
  }

  // ---------------------------------------------------------------- the machine

  datatype Target = Target(isVoid: bool, f: seq<int> -> int)

  /** `owner` says which spawn a block was allocated for; no step looks at it. */
  datatype Cell =
    | Packed(fields: seq<Option<int>>, owner: nat)
    | Result(value: Option<int>, owner: nat)
    | Handle(thread: nat, completed: bool, result: nat)

  datatype Task = Task(pc: nat, vals: seq<int>, value: Option<int>, result: nat)

  datatype Job = Job(target: Target, args: seq<int>, pc: nat, packed: nat, handle: nat,
                     task: Option<Task>, awaited: Option<nat>)

  /** `job` is the spawn whose handle the awaited local holds; no step looks at it. */
  datatype Await = Await(job: nat, typed: bool, handle: nat, pc: nat, ptr: nat, value: Option<int>)

  datatype System = System(heap: map<nat, Cell>, jobs: seq<Job>, awaits: seq<Await>)

  datatype Outcome = Next(s: System) | Fault | Blocked

  /** malloc answers any address that is not in use. */
  predicate Fresh(s: System, a: nat) { a != 0 && a !in s.heap }

  function Free(h: map<nat, Cell>, a: nat): map<nat, Cell> { h - {a} }

  function SpawnStep(s: System, j: nat, a: nat): Outcome
    requires j < |s.jobs|
  {
    var b := s.jobs[j];
    var code := SpawnSite(|b.args|);
    if b.pc >= |code| then Blocked
    else
      match code[b.pc]
      case MallocArgs =>
        if !Fresh(s, a) then Blocked
        else Next(s.(heap := s.heap[a := Packed(seq(|b.args|, i => None), j)],
                     jobs := s.jobs[j := b.(pc := b.pc + 1, packed := a)]))
      case StoreField(i) =>
        if !(b.packed in s.heap && s.heap[b.packed].Packed? && i < |s.heap[b.packed].fields| && i < |b.args|) then Fault
        else
          var cell := s.heap[b.packed];
          Next(s.(heap := s.heap[b.packed := cell.(fields := cell.fields[i := Some(b.args[i])])],
                  jobs := s.jobs[j := b.(pc := b.pc + 1)]))
      case TaskCreate =>
        if !Fresh(s, a) then Blocked
        else Next(s.(heap := s.heap[a := Handle(j, false, 0)],
                     jobs := s.jobs[j := b.(pc := b.pc + 1, handle := a, task := Some(Task(0, [], None, 0)))]))
  }

  function TaskStep(s: System, j: nat, a: nat): Outcome
    requires j < |s.jobs|
  {
    var b := s.jobs[j];
    if b.task.None? || b.task.value.pc >= |Trampoline(|b.args|, b.target.isVoid)| then Blocked
    else
      var t := b.task.value;
      match Trampoline(|b.args|, b.target.isVoid)[t.pc]
      case LoadField(i) =>
        if !(b.packed in s.heap && s.heap[b.packed].Packed? && i < |s.heap[b.packed].fields| &&
             s.heap[b.packed].fields[i].Some?) then Fault
        else Next(Advance(s, j, t.(vals := t.vals + [s.heap[b.packed].fields[i].value])))
      case FreeArgs =>
        if !(b.packed in s.heap && s.heap[b.packed].Packed?) then Fault
        else Next(Advance(s.(heap := Free(s.heap, b.packed)), j, t))
      case CallTarget =>
        Next(Advance(s, j, t.(value := if b.target.isVoid then None else Some(b.target.f(t.vals)))))
      case MallocResult =>
        if !Fresh(s, a) then Blocked
        else Next(Advance(s.(heap := s.heap[a := Result(None, j)]), j, t.(result := a)))
      case StoreResult =>
        if !(t.result in s.heap && s.heap[t.result].Result? && t.value.Some?) then Fault
        else Next(Advance(s.(heap := s.heap[t.result := s.heap[t.result].(value := t.value)]), j, t))
      case Exit => Next(Advance(s, j, t))
  }

  function Advance(s: System, j: nat, t: Task): System
    requires j < |s.jobs|
  {
    s.(jobs := s.jobs[j := s.jobs[j].(task := Some(t.(pc := t.pc + 1)))])
  }

  predicate Exited(s: System, j: nat) {
    && j < |s.jobs| && s.jobs[j].task.Some?
    && s.jobs[j].task.value.pc == |Trampoline(|s.jobs[j].args|, s.jobs[j].target.isVoid)|
  }

  function AwaitStep(s: System, k: nat): Outcome
    requires k < |s.awaits|
  {
    var w := s.awaits[k];
    if w.pc >= |AwaitSite(w.typed)| then Blocked
    else
      match AwaitSite(w.typed)[w.pc]
      case Join =>
        if !(w.handle in s.heap && s.heap[w.handle].Handle?) then Fault
        else
          var h := s.heap[w.handle];
          if h.completed then Next(Proceed(s, k, w.(ptr := h.result)))
          else if !Exited(s, h.thread) then Blocked
          else
            var p := s.jobs[h.thread].task.value.result;
            Next(Proceed(s.(heap := s.heap[w.handle := h.(completed := true, result := p)]), k, w.(ptr := p)))
      case LoadValue =>
        if !(w.ptr in s.heap && s.heap[w.ptr].Result? && s.heap[w.ptr].value.Some?) then Fault
        else Next(Proceed(s, k, w.(value := s.heap[w.ptr].value)))
      case FreeResult =>
        if !(w.ptr in s.heap && s.heap[w.ptr].Result?) then Fault
        else Next(Proceed(s.(heap := Free(s.heap, w.ptr)), k, w))
      case FreeTask =>
        if !(w.handle in s.heap && s.heap[w.handle].Handle?) then Fault
        else Next(Proceed(s.(heap := Free(s.heap, w.handle)), k, w))
  }

  function Proceed(s: System, k: nat, w: Await): System
    requires k < |s.awaits|
  {
    s.(awaits := s.awaits[k := w.(pc := w.pc + 1)])
  }

  /** One scheduling decision: which thread moves, and what malloc answers. */
  datatype Choice =
    | BeginSpawn(target: Target, args: seq<int>)
    | BeginAwait(job: nat, typed: bool)
    | StepSpawn(j: nat, a: nat)
    | StepTask(j: nat, a: nat)
    | StepAwait(k: nat)

  function Step(s: System, c: Choice): Outcome {
    match c
    case BeginSpawn(t, args) => Next(s.(jobs := s.jobs + [Job(t, args, 0, 0, 0, None, None)]))
    case BeginAwait(j, typed) =>
      if !(j < |s.jobs| && s.jobs[j].task.Some?) then Blocked
      else Next(s.(awaits := s.awaits + [Await(j, typed, s.jobs[j].handle, 0, 0, None)],
                   jobs := s.jobs[j := s.jobs[j].(awaited := Some(|s.awaits|))]))
    case StepSpawn(j, a) => if j < |s.jobs| then SpawnStep(s, j, a) else Blocked
    case StepTask(j, a) => if j < |s.jobs| then TaskStep(s, j, a) else Blocked
    case StepAwait(k) => if k < |s.awaits| then AwaitStep(s, k) else Blocked
  }

  /** A blocked choice is skipped: the scheduler picks another. */
  function Run(s: System, cs: seq<Choice>): Outcome
    decreases |cs|
  {
    if cs == [] then Next(s)
    else
      match Step(s, cs[0])
      case Fault => Fault
      case Blocked => Run(s, cs[1..])
      case Next(n) => Run(n, cs[1..])
  }

  /** Each task is awaited once, and as the type of its result says it may be. */
  predicate Allowed(s: System, c: Choice) {
    c.BeginAwait? && c.job < |s.jobs| ==> s.jobs[c.job].awaited.None? && (c.typed ==> !s.jobs[c.job].target.isVoid)
  }

  predicate Disciplined(s: System, cs: seq<Choice>)
    decreases |cs|
  {
    cs == [] || (Allowed(s, cs[0]) &&
                 match Step(s, cs[0])
                 case Fault => true
                 case Blocked => Disciplined(s, cs[1..])
                 case Next(n) => Disciplined(n, cs[1..]))
  }

  const START := System(map[], [], [])

  // ---------------------------------------------------------------- what is live

  /** Where the trampoline calls the target. */
  function CallAt(n: nat): nat { if n == 0 then 0 else n + 1 }

  function SpawnEnd(n: nat): nat { if n == 0 then 1 else n + 2 }

  function TaskEnd(b: Job): nat { CallAt(|b.args|) + (if b.target.isVoid then 2 else 4) }

  function AwaitEnd(typed: bool): nat { if typed then 4 else 2 }

  lemma SpawnCode(n: nat)
    ensures |SpawnSite(n)| == SpawnEnd(n)
    ensures forall pc: nat | pc < SpawnEnd(n) ::
      SpawnSite(n)[pc] == if pc == SpawnEnd(n) - 1 then TaskCreate else if pc == 0 then MallocArgs else StoreField(pc - 1)
  {
  }

  function TaskOpAt(b: Job, pc: nat): TaskOp {
    var n := |b.args|;
    if pc < n then LoadField(pc) else if pc < CallAt(n) then FreeArgs else if pc == CallAt(n) then CallTarget
    else if b.target.isVoid || pc == CallAt(n) + 3 then Exit
    else if pc == CallAt(n) + 1 then MallocResult else StoreResult
  }

  lemma TaskCode(b: Job)
    ensures |Trampoline(|b.args|, b.target.isVoid)| == TaskEnd(b)
    ensures forall pc: nat | pc < TaskEnd(b) :: Trampoline(|b.args|, b.target.isVoid)[pc] == TaskOpAt(b, pc)
  {
  }

  lemma AwaitCode(typed: bool)
    ensures |AwaitSite(typed)| == AwaitEnd(typed)
    ensures forall pc: nat | pc < AwaitEnd(typed) ::
      AwaitSite(typed)[pc] == if pc == 0 then Join else if typed && pc == 1 then LoadValue
                              else if typed && pc == 2 then FreeResult else FreeTask
  {
  }

  /** Packed and not yet freed by the trampoline. */
  predicate HoldsPacked(b: Job) {
    |b.args| > 0 && b.pc >= 1 && (b.task.Some? ==> b.task.value.pc <= |b.args|)
  }

  /** Created, and no await of it has finished. */
  predicate HoldsHandle(s: System, b: Job) {
    && b.task.Some?
    && (b.awaited.Some? && b.awaited.value < |s.awaits| ==>
          s.awaits[b.awaited.value].pc < AwaitEnd(s.awaits[b.awaited.value].typed))
  }

  /** Allocated by the trampoline, and not freed by an await. */
  predicate HoldsResult(s: System, b: Job) {
    && b.task.Some? && !b.target.isVoid && b.task.value.pc >= CallAt(|b.args|) + 2
    && !(b.awaited.Some? && b.awaited.value < |s.awaits|
         && s.awaits[b.awaited.value].typed && s.awaits[b.awaited.value].pc >= 3)
  }

  /** The addresses a spawn is responsible for. */
  predicate Owns(s: System, b: Job, a: nat) {
    || (HoldsPacked(b) && a == b.packed)
    || (HoldsHandle(s, b) && a == b.handle)
    || (HoldsResult(s, b) && a == b.task.value.result)
  }

  // ---------------------------------------------------------------- the invariant

  function OwnerOf(c: Cell): nat { if c.Handle? then c.thread else c.owner }

  predicate Done(b: Job) { b.task.Some? && b.task.value.pc == TaskEnd(b) }

  predicate JobOk(b: Job) {
    var n := |b.args|;
    && b.pc <= SpawnEnd(n) && (b.task.Some? <==> b.pc == SpawnEnd(n))
    && (b.awaited.Some? ==> b.task.Some?)
    && (b.task.Some? ==> TaskOk(b, b.task.value))
  }

  predicate TaskOk(b: Job, t: Task) {
    var n := |b.args|;
    && t.pc <= TaskEnd(b)
    && t.vals == b.args[..if t.pc <= n then t.pc else n]
    && (!b.target.isVoid && t.pc > CallAt(n) ==> t.value == Some(b.target.f(b.args)))
  }

  predicate PackedOk(s: System, j: nat, b: Job) {
    HoldsPacked(b) ==>
      && b.packed in s.heap && s.heap[b.packed].Packed? && s.heap[b.packed].owner == j
      && |s.heap[b.packed].fields| == |b.args|
      && forall i | 0 <= i < |b.args| && i + 1 < b.pc :: s.heap[b.packed].fields[i] == Some(b.args[i])
  }

  predicate HandleOk(s: System, j: nat, b: Job) {
    HoldsHandle(s, b) ==>
      && b.handle in s.heap && s.heap[b.handle].Handle? && s.heap[b.handle].thread == j
      && (s.heap[b.handle].completed ==>
            b.awaited.Some? && b.awaited.value < |s.awaits| && s.awaits[b.awaited.value].pc >= 1)
  }

  predicate ResultOk(s: System, j: nat, b: Job) {
    HoldsResult(s, b) ==>
      var p := b.task.value.result;
      && p in s.heap && s.heap[p].Result? && s.heap[p].owner == j
      && (b.task.value.pc >= CallAt(|b.args|) + 3 ==> s.heap[p].value == Some(b.target.f(b.args)))
  }

  /** All that is said about one spawn and the blocks labelled with it. */
  ghost predicate Local(s: System, j: nat)
    requires j < |s.jobs|
  {
    var b := s.jobs[j];
    && JobOk(b) && PackedOk(s, j, b) && HandleOk(s, j, b) && ResultOk(s, j, b)
    && (b.awaited.Some? ==> b.awaited.value < |s.awaits| && s.awaits[b.awaited.value].job == j)
    && (forall a | a in s.heap && OwnerOf(s.heap[a]) == j :: CellOk(s, b, a))
  }

  predicate CellOk(s: System, b: Job, a: nat)
    requires a in s.heap
  {
    match s.heap[a]
    case Packed(_, _) => HoldsPacked(b) && b.packed == a
    case Result(_, _) => HoldsResult(s, b) && b.task.value.result == a
    case Handle(_, _, _) => HoldsHandle(s, b) && b.handle == a
  }

  predicate AwaitOk(s: System, k: nat)
    requires k < |s.awaits|
  {
    var w := s.awaits[k];
    w.job < |s.jobs| &&
    var b := s.jobs[w.job];
    && b.task.Some? && b.awaited == Some(k) && w.handle == b.handle && (w.typed ==> !b.target.isVoid)
    && w.pc <= AwaitEnd(w.typed)
    && (w.pc >= 1 ==> Done(b) && w.ptr == b.task.value.result)
    && (w.value == if w.typed && w.pc >= 2 then Some(b.target.f(b.args)) else None)
  }

  ghost predicate Good(s: System) {
    && (forall j | 0 <= j < |s.jobs| :: Local(s, j))
    && (forall k | 0 <= k < |s.awaits| :: AwaitOk(s, k))
    && (forall a | a in s.heap :: OwnerOf(s.heap[a]) < |s.jobs|)
  }

  // ---------------------------------------------------------------- every step keeps it

  /** A step of spawn `j` or of its task: one block at most, and one of its own. */
  ghost predicate Touches(s: System, n: System, j: nat, a: nat) {
    && j < |s.jobs| == |n.jobs| && n.awaits == s.awaits
    && (forall i | 0 <= i < |s.jobs| && i != j :: n.jobs[i] == s.jobs[i])
    && (forall x | x != a :: (x in n.heap <==> x in s.heap) && (x in s.heap ==> n.heap[x] == s.heap[x]))
    && (n.heap == s.heap || ((a in s.heap ==> OwnerOf(s.heap[a]) == j) && (a in n.heap ==> OwnerOf(n.heap[a]) == j)))
  }

  ghost predicate SameTask(b: Job, c: Job) {
    && c.target == b.target && c.args == b.args && c.awaited == b.awaited
    && (b.task.Some? ==> c.task.Some? && c.handle == b.handle && (Done(b) ==> c.task == b.task))
  }

  lemma TouchGood(s: System, n: System, j: nat, a: nat)
    requires Good(s) && Touches(s, n, j, a) && Local(n, j) && SameTask(s.jobs[j], n.jobs[j])
    ensures Good(n)
  {
    hide JobOk;
    forall i | 0 <= i < |n.jobs| ensures Local(n, i) {
      if i != j { LocalKept(s, n, i, j, a); }
    }
    forall k | 0 <= k < |n.awaits| ensures AwaitOk(n, k) {
      assert AwaitOk(s, k);
    }
  }

  lemma LocalKept(s: System, n: System, i: nat, j: nat, a: nat)
    requires Touches(s, n, j, a) && i < |s.jobs| && i != j && Local(s, i)
    ensures Local(n, i)
  {
    hide JobOk;
  }

  lemma SpawnStepGood(s: System, j: nat, a: nat)
    requires Good(s) && j < |s.jobs|
    ensures !SpawnStep(s, j, a).Fault?
    ensures SpawnStep(s, j, a).Next? ==> Good(SpawnStep(s, j, a).s)
  {
    assert Local(s, j);
    hide Good, SpawnSite;
    var b := s.jobs[j];
    SpawnCode(|b.args|);
    var r := SpawnStep(s, j, a);
    if r.Next? {
      var at := if b.pc == 0 || b.pc == SpawnEnd(|b.args|) - 1 then a else b.packed;
      assert Touches(s, r.s, j, at);
      assert Local(r.s, j);
      TouchGood(s, r.s, j, at);
    }
  }

  ghost predicate TaskReady(s: System, j: nat) {
    && j < |s.jobs| && Local(s, j)
    && (s.jobs[j].awaited.Some? ==> AwaitOk(s, s.jobs[j].awaited.value))
  }

  lemma TaskNeverFaults(s: System, j: nat, a: nat)
    requires TaskReady(s, j)
    ensures !TaskStep(s, j, a).Fault?
  {
    hide Trampoline;
    TaskCode(s.jobs[j]);
  }

  lemma TaskStepTouches(s: System, j: nat, a: nat)
    requires TaskReady(s, j) && TaskStep(s, j, a).Next?
    ensures var n := TaskStep(s, j, a).s;
      Touches(s, n, j, TaskAddress(s.jobs[j], a)) && SameTask(s.jobs[j], n.jobs[j])
  {
    hide Trampoline;
    TaskCode(s.jobs[j]);
  }

  lemma TaskStepLocal(s: System, j: nat, a: nat)
    requires TaskReady(s, j) && TaskStep(s, j, a).Next?
    ensures Local(TaskStep(s, j, a).s, j)
  {
    hide Trampoline;
    var b := s.jobs[j];
    TaskCode(b);
    assert b.args[..|b.args|] == b.args;
  }

  function TaskAddress(b: Job, a: nat): nat {
    if b.task.None? then a
    else
      match TaskOpAt(b, b.task.value.pc)
      case FreeArgs => b.packed
      case MallocResult => a
      case _ => b.task.value.result
  }

  lemma TaskStepGood(s: System, j: nat, a: nat)
    requires Good(s) && j < |s.jobs|
    ensures !TaskStep(s, j, a).Fault?
    ensures TaskStep(s, j, a).Next? ==> Good(TaskStep(s, j, a).s)
  {
    assert Local(s, j);
    assert TaskReady(s, j);
    hide Good, Touches, Local, SameTask, TaskStep;
    TaskNeverFaults(s, j, a);
    var r := TaskStep(s, j, a);
    if r.Next? {
      TaskStepTouches(s, j, a);
      TaskStepLocal(s, j, a);
      TouchGood(s, r.s, j, TaskAddress(s.jobs[j], a));
    }
  }

  /** A step of await `k`: one block at most, and one of the awaited spawn. */
  ghost predicate Awaits(s: System, n: System, k: nat, a: nat) {
    && k < |s.awaits| == |n.awaits| && n.jobs == s.jobs
    && n.awaits[k].job == s.awaits[k].job < |s.jobs|
    && (forall i | 0 <= i < |s.awaits| && i != k :: n.awaits[i] == s.awaits[i])
    && (forall x | x != a :: (x in n.heap <==> x in s.heap) && (x in s.heap ==> n.heap[x] == s.heap[x]))
    && (a in s.heap ==> OwnerOf(s.heap[a]) == s.awaits[k].job)
    && (a in n.heap ==> OwnerOf(n.heap[a]) == s.awaits[k].job)
  }

  lemma AwaitsGood(s: System, n: System, k: nat, a: nat)
    requires Good(s) && Awaits(s, n, k, a) && Local(n, s.awaits[k].job) && AwaitOk(n, k)
    ensures Good(n)
  {
    hide JobOk;
    forall i | 0 <= i < |n.jobs| ensures Local(n, i) {
      if i != s.awaits[k].job { LocalKeptByAwait(s, n, i, k, a); }
    }
    forall i | 0 <= i < |n.awaits| ensures AwaitOk(n, i) {
      assert AwaitOk(s, i);
    }
  }

  lemma LocalKeptByAwait(s: System, n: System, i: nat, k: nat, a: nat)
    requires Awaits(s, n, k, a) && i < |s.jobs| && i != s.awaits[k].job && Local(s, i)
    ensures Local(n, i)
  {
    hide JobOk;
  }

  lemma AwaitStepGood(s: System, k: nat)
    requires Good(s) && k < |s.awaits|
    ensures !AwaitStep(s, k).Fault?
    ensures AwaitStep(s, k).Next? ==> Good(AwaitStep(s, k).s)
  {
    assert AwaitOk(s, k) && Local(s, s.awaits[k].job);
    hide Good, AwaitSite;
    var w := s.awaits[k];
    var b := s.jobs[w.job];
    AwaitCode(w.typed);
    TaskCode(b);
    var r := AwaitStep(s, k);
    if r.Next? {
      var at := if w.typed && 1 <= w.pc < 3 then w.ptr else w.handle;
      assert Awaits(s, r.s, k, at);
      assert AwaitOk(r.s, k);
      assert Local(r.s, w.job);
      AwaitsGood(s, r.s, k, at);
    }
  }

  lemma BeginSpawnGood(s: System, t: Target, args: seq<int>)
    requires Good(s)
    ensures Good(Step(s, BeginSpawn(t, args)).s)
  {
    var n := Step(s, BeginSpawn(t, args)).s;
    forall j | 0 <= j < |n.jobs| ensures Local(n, j) {
      if j < |s.jobs| { assert Local(s, j); }
    }
    forall k | 0 <= k < |n.awaits| ensures AwaitOk(n, k) {
      assert AwaitOk(s, k);
    }
  }

  lemma BeginAwaitGood(s: System, j: nat, typed: bool)
    requires Good(s) && Allowed(s, BeginAwait(j, typed)) && Step(s, BeginAwait(j, typed)).Next?
    ensures Good(Step(s, BeginAwait(j, typed)).s)
  {
    hide JobOk;
    var n := Step(s, BeginAwait(j, typed)).s;
    forall i | 0 <= i < |n.jobs| ensures Local(n, i) {
      assert Local(s, i);
      assert Local(s, j);
      assert JobOk(n.jobs[i]) by { JobOkAwaited(s.jobs[j], |s.awaits|); }
    }
    forall k | 0 <= k < |n.awaits| ensures AwaitOk(n, k) {
      if k < |s.awaits| { assert AwaitOk(s, k); }
    }
  }

  lemma JobOkAwaited(b: Job, k: nat)
    requires JobOk(b) && b.task.Some?
    ensures JobOk(b.(awaited := Some(k)))
  {
  }

  lemma StepGood(s: System, c: Choice)
    requires Good(s) && Allowed(s, c)
    ensures !Step(s, c).Fault?
    ensures Step(s, c).Next? ==> Good(Step(s, c).s)
  {
    match c
    case BeginSpawn(t, args) => BeginSpawnGood(s, t, args);
    case BeginAwait(j, typed) => if Step(s, c).Next? { BeginAwaitGood(s, j, typed); }
    case StepSpawn(j, a) => if j < |s.jobs| { SpawnStepGood(s, j, a); }
    case StepTask(j, a) => if j < |s.jobs| { TaskStepGood(s, j, a); }
    case StepAwait(k) => if k < |s.awaits| { AwaitStepGood(s, k); }
  }

  lemma {:induction false} RunGood(s: System, cs: seq<Choice>)
    requires Good(s) && Disciplined(s, cs)
    ensures Run(s, cs).Next? && Good(Run(s, cs).s)
    decreases |cs|
  {
    hide Good, Step, Allowed;
    if cs != [] {
      StepGood(s, cs[0]);
      match Step(s, cs[0])
      case Fault =>
      case Blocked => RunGood(s, cs[1..]);
      case Next(n) => RunGood(n, cs[1..]);
    }
  }

  // ---------------------------------------------------------------- the theorems

  predicate Finished(w: Await) { w.pc == |AwaitSite(w.typed)| }

  predicate OwnedBySome(s: System, a: nat) {
    exists j :: 0 <= j < |s.jobs| && Owns(s, s.jobs[j], a)
  }

  /** In every interleaving no step faults, and a finished await of a task with a
      value holds the target applied to the arguments it was spawned with. */
  lemma EveryAwaitIsRight(cs: seq<Choice>, k: nat)
    requires Disciplined(START, cs)
    ensures Run(START, cs).Next?
    ensures var s := Run(START, cs).s;
      k < |s.awaits| && Finished(s.awaits[k]) ==>
        var w := s.awaits[k];
        w.job < |s.jobs| && w.value == if w.typed then Some(s.jobs[w.job].target.f(s.jobs[w.job].args)) else None
  {
    RunGood(START, cs);
    var s := Run(START, cs).s;
    if k < |s.awaits| {
      assert AwaitOk(s, k);
      AwaitCode(s.awaits[k].typed);
    }
  }

  /** In every interleaving the live blocks are exactly the argument blocks not
      yet unpacked, the results not yet awaited and the handles not yet awaited. */
  lemma LiveExactly(cs: seq<Choice>)
    requires Disciplined(START, cs)
    ensures Run(START, cs).Next?
    ensures var s := Run(START, cs).s; forall a :: a in s.heap <==> OwnedBySome(s, a)
  {
    RunGood(START, cs);
    var s := Run(START, cs).s;
    forall a ensures a in s.heap <==> OwnedBySome(s, a) {
      if a in s.heap {
        assert Local(s, OwnerOf(s.heap[a]));
        assert Owns(s, s.jobs[OwnerOf(s.heap[a])], a);
      }
      if OwnedBySome(s, a) {
        var j :| 0 <= j < |s.jobs| && Owns(s, s.jobs[j], a);
        assert Local(s, j);
      }
    }
  }

  /** No block is owned twice. */
  lemma OwnersDistinct(s: System, i: nat, j: nat, a: nat)
    requires Good(s) && i < |s.jobs| && j < |s.jobs| && Owns(s, s.jobs[i], a) && Owns(s, s.jobs[j], a)
    ensures i == j
  {
    assert Local(s, i) && Local(s, j);
  }

  predicate Settled(s: System) {
    && (forall j | 0 <= j < |s.jobs| :: Exited(s, j))
    && (forall k | 0 <= k < |s.awaits| :: Finished(s.awaits[k]))
  }

  /** When everything has come to rest, nothing is left over exactly when every
      task was awaited, and every value through a typed local. */
  lemma NoLeakIff(cs: seq<Choice>)
    requires Disciplined(START, cs) && Run(START, cs).Next? && Settled(Run(START, cs).s)
    ensures var s := Run(START, cs).s;
      s.heap == map[] <==>
        forall j | 0 <= j < |s.jobs| :: var b := s.jobs[j];
          b.awaited.Some? && b.awaited.value < |s.awaits| && (s.awaits[b.awaited.value].typed || b.target.isVoid)
  {
    LiveExactly(cs);
    RunGood(START, cs);
    var s := Run(START, cs).s;
    forall j | 0 <= j < |s.jobs|
      ensures var b := s.jobs[j];
        (b.awaited.Some? && b.awaited.value < |s.awaits| && (s.awaits[b.awaited.value].typed || b.target.isVoid))
        <==> forall a :: !Owns(s, b, a)
    {
      assert Local(s, j) && Exited(s, j);
      var b := s.jobs[j];
      TaskCode(b);
      if b.awaited.Some? {
        assert Finished(s.awaits[b.awaited.value]);
        AwaitCode(s.awaits[b.awaited.value].typed);
      }
      assert HoldsHandle(s, b) ==> Owns(s, b, b.handle);
      assert HoldsResult(s, b) ==> Owns(s, b, b.task.value.result);
    }
    if a :| a in s.heap {
      assert OwnedBySome(s, a);
    } else {
      assert s.heap == map[];
      forall j, a | 0 <= j < |s.jobs| ensures !Owns(s, s.jobs[j], a) {
        assert !OwnedBySome(s, a);
      }
    }
  }

  /** A task or await that has not come to its end is never stuck for good: some
      thread can move, whatever address malloc has left. */
  lemma NeverDeadlocked(s: System, a: nat)
    requires Good(s) && Fresh(s, a) && !Settled(s)
    ensures exists c: Choice :: Moving(c) && Step(s, c).Next?
  {
    if j :| 0 <= j < |s.jobs| && !Exited(s, j) {
      Moves(s, j, a);
    } else {
      var k :| 0 <= k < |s.awaits| && !Finished(s.awaits[k]);
      assert AwaitOk(s, k) && Local(s, s.awaits[k].job) && Exited(s, s.awaits[k].job);
      AwaitCode(s.awaits[k].typed);
      AwaitStepGood(s, k);
      assert Step(s, StepAwait(k)).Next?;
    }
  }

  lemma Moves(s: System, j: nat, a: nat)
    requires Good(s) && Fresh(s, a) && j < |s.jobs| && !Exited(s, j)
    ensures exists c: Choice :: Moving(c) && Step(s, c).Next?
  {
    var b := s.jobs[j];
    assert Local(s, j);
    TaskCode(b);
    SpawnCode(|b.args|);
    SpawnStepGood(s, j, a);
    TaskStepGood(s, j, a);
    assert Step(s, StepSpawn(j, a)).Next? || Step(s, StepTask(j, a)).Next?;
  }

  // ---------------------------------------------------------------- every run settles

  function JobWork(b: Job): int {
    SpawnEnd(|b.args|) - b.pc + TaskEnd(b) - (if b.task.Some? then b.task.value.pc else 0)
  }

  function JobsWork(bs: seq<Job>): int { if bs == [] then 0 else JobWork(bs[0]) + JobsWork(bs[1..]) }

  function AwaitsWork(ws: seq<Await>): int {
    if ws == [] then 0 else AwaitEnd(ws[0].typed) - ws[0].pc + AwaitsWork(ws[1..])
  }

  /** The instructions left to execute. */
  function Work(s: System): int { JobsWork(s.jobs) + AwaitsWork(s.awaits) }

  lemma {:induction false} JobsWorkUpdate(bs: seq<Job>, j: nat, b: Job)
    requires j < |bs|
    ensures JobsWork(bs[j := b]) == JobsWork(bs) - JobWork(bs[j]) + JobWork(b)
  {
    hide JobWork;
    if j == 0 {
      assert bs[0 := b][1..] == bs[1..];
    } else {
      JobsWorkUpdate(bs[1..], j - 1, b);
      assert bs[j := b][1..] == bs[1..][j - 1 := b];
    }
  }

  lemma {:induction false} AwaitsWorkUpdate(ws: seq<Await>, k: nat, w: Await)
    requires k < |ws| && w.typed == ws[k].typed
    ensures AwaitsWork(ws[k := w]) == AwaitsWork(ws) + ws[k].pc - w.pc
  {
    if k == 0 {
      assert ws[0 := w][1..] == ws[1..];
    } else {
      AwaitsWorkUpdate(ws[1..], k - 1, w);
      assert ws[k := w][1..] == ws[1..][k - 1 := w];
    }
  }

  lemma {:induction false} WorkNonNegative(s: System)
    requires Good(s)
    ensures Work(s) >= 0
  {
    forall j | 0 <= j < |s.jobs| ensures JobWork(s.jobs[j]) >= 0 { assert Local(s, j); }
    forall k | 0 <= k < |s.awaits| ensures s.awaits[k].pc <= AwaitEnd(s.awaits[k].typed) { assert AwaitOk(s, k); }
    JobsNonNegative(s.jobs);
    AwaitsNonNegative(s.awaits);
  }

  lemma {:induction false} JobsNonNegative(bs: seq<Job>)
    requires forall j | 0 <= j < |bs| :: JobWork(bs[j]) >= 0
    ensures JobsWork(bs) >= 0
  {
    if bs != [] { JobsNonNegative(bs[1..]); }
  }

  lemma {:induction false} AwaitsNonNegative(ws: seq<Await>)
    requires forall k | 0 <= k < |ws| :: ws[k].pc <= AwaitEnd(ws[k].typed)
    ensures AwaitsWork(ws) >= 0
  {
    if ws != [] { AwaitsNonNegative(ws[1..]); }
  }

  predicate Moving(c: Choice) { !c.BeginSpawn? && !c.BeginAwait? }

  /** Whatever the scheduler picks, one instruction fewer is left: no run without
      new spawns and awaits goes on for longer than that. */
  lemma StepWorks(s: System, c: Choice)
    requires Good(s) && Moving(c) && Step(s, c).Next?
    ensures Work(Step(s, c).s) == Work(s) - 1
  {
    var n := Step(s, c).s;
    match c
    case StepSpawn(j, a) =>
      assert Local(s, j);
      SpawnWorks(s, j, a);
    case StepTask(j, a) => TaskWorks(s, j, a);
    case StepAwait(k) =>
      AwaitsWorkUpdate(s.awaits, k, n.awaits[k]);
      assert n.awaits == s.awaits[k := n.awaits[k]];
  }

  lemma SpawnWorks(s: System, j: nat, a: nat)
    requires j < |s.jobs| && JobOk(s.jobs[j]) && SpawnStep(s, j, a).Next?
    ensures Work(SpawnStep(s, j, a).s) == Work(s) - 1
  {
    var n := SpawnStep(s, j, a).s;
    SpawnCode(|s.jobs[j].args|);
    JobsWorkUpdate(s.jobs, j, n.jobs[j]);
    assert n.jobs == s.jobs[j := n.jobs[j]];
  }

  lemma TaskAdvances(s: System, j: nat, a: nat)
    requires j < |s.jobs| && TaskStep(s, j, a).Next?
    ensures var n, b := TaskStep(s, j, a).s, s.jobs[j];
      && b.task.Some? && n.awaits == s.awaits && |n.jobs| == |s.jobs| && n.jobs == s.jobs[j := n.jobs[j]]
      && n.jobs[j].task.Some?
      && n.jobs[j] == b.(task := Some(n.jobs[j].task.value)) && n.jobs[j].task.value.pc == b.task.value.pc + 1
  {
    hide Trampoline;
  }

  lemma TaskWorks(s: System, j: nat, a: nat)
    requires j < |s.jobs| && TaskStep(s, j, a).Next?
    ensures Work(TaskStep(s, j, a).s) == Work(s) - 1
  {
    hide Trampoline, TaskStep;
    TaskAdvances(s, j, a);
    JobsWorkUpdate(s.jobs, j, TaskStep(s, j, a).s.jobs[j]);
  }

  lemma NextAddress(s: System) returns (a: nat)
    ensures Fresh(s, a)
  {
    a := Above(s.heap.Keys);
  }

  lemma {:induction false} Above(xs: set<nat>) returns (a: nat)
    ensures a != 0 && forall x | x in xs :: x < a
    decreases xs
  {
    if x :| x in xs {
      var b := Above(xs - {x});
      assert forall y | y in xs :: y == x || y in xs - {x};
      a := if x < b then b else x + 1;
    } else {
      a := 1;
    }
  }

  /** Every spawn that was begun can be brought to its end, every await with it. */
  lemma {:induction false} CanSettle(s: System) returns (cs: seq<Choice>)
    requires Good(s)
    ensures (forall c | c in cs :: Moving(c)) && |cs| == Work(s)
    ensures Run(s, cs).Next? && Settled(Run(s, cs).s)
    decreases Work(s)
  {
    hide Good, Step, Settled, Allowed, Work;
    WorkNonNegative(s);
    if Settled(s) {
      cs := [];
      SettledWork(s);
    } else {
      var a := NextAddress(s);
      NeverDeadlocked(s, a);
      var c :| Moving(c) && Step(s, c).Next?;
      MovingAllowed(s, c);
      StepGood(s, c);
      StepWorks(s, c);
      var n := Step(s, c).s;
      WorkNonNegative(n);
      var rest := CanSettle(n);
      cs := [c] + rest;
      assert cs[1..] == rest;
    }
  }

  lemma MovingAllowed(s: System, c: Choice)
    requires Moving(c)
    ensures Allowed(s, c)
  {
  }

  lemma SettledWork(s: System)
    requires Good(s) && Settled(s)
    ensures Work(s) == 0
  {
    forall j | 0 <= j < |s.jobs| ensures JobWork(s.jobs[j]) == 0 {
      assert Local(s, j) && Exited(s, j);
      TaskCode(s.jobs[j]);
    }
    forall k | 0 <= k < |s.awaits| ensures s.awaits[k].pc == AwaitEnd(s.awaits[k].typed) {
      assert Finished(s.awaits[k]);
      AwaitCode(s.awaits[k].typed);
    }
    JobsIdle(s.jobs);
    AwaitsIdle(s.awaits);
  }

  lemma {:induction false} JobsIdle(bs: seq<Job>)
    requires forall j | 0 <= j < |bs| :: JobWork(bs[j]) == 0
    ensures JobsWork(bs) == 0
  {
    if bs != [] { JobsIdle(bs[1..]); }
  }

  lemma {:induction false} AwaitsIdle(ws: seq<Await>)
    requires forall k | 0 <= k < |ws| :: ws[k].pc == AwaitEnd(ws[k].typed)
    ensures AwaitsWork(ws) == 0
  {
    if ws != [] { AwaitsIdle(ws[1..]); }
  }

  // ---------------------------------------------------------------- awaiting twice

  /** The state with one more await, of a task that may have been awaited already. */
  function WithAwait(s: System, j: nat, h: nat, typed: bool): System
    requires j < |s.jobs|
  {
    s.(awaits := s.awaits + [Await(j, typed, h, 0, 0, None)], jobs := s.jobs[j := s.jobs[j].(awaited := Some(|s.awaits|))])
  }

  /** No other thread notices it. */
  lemma StepUnnoticed(s: System, c: Choice, j: nat, h: nat, typed: bool)
    requires Moving(c) && Step(s, c).Next? && j < |s.jobs|
    ensures j < |Step(s, c).s.jobs| && |Step(s, c).s.awaits| == |s.awaits|
    ensures Step(WithAwait(s, j, h, typed), c) == Next(WithAwait(Step(s, c).s, j, h, typed))
  {
    hide SpawnStep, TaskStep, AwaitStep;
    match c
    case StepSpawn(i, a) => SpawnUnnoticed(s, i, a, j, h, typed);
    case StepTask(i, a) => TaskUnnoticed(s, i, a, j, h, typed);
    case StepAwait(k) => AwaitUnnoticed(s, k, j, h, typed);
  }

  lemma SpawnUnnoticed(s: System, i: nat, a: nat, j: nat, h: nat, typed: bool)
    requires i < |s.jobs| && j < |s.jobs| && SpawnStep(s, i, a).Next?
    ensures var n := SpawnStep(s, i, a).s;
      && |n.jobs| == |s.jobs| && n.awaits == s.awaits
      && SpawnStep(WithAwait(s, j, h, typed), i, a) == Next(WithAwait(n, j, h, typed))
  {
    hide SpawnSite;
    var n, y := SpawnStep(s, i, a).s, SpawnStep(WithAwait(s, j, h, typed), i, a).s;
    assert y.heap == n.heap;
    assert y.jobs == WithAwait(n, j, h, typed).jobs;
  }

  lemma TaskUnnoticed(s: System, i: nat, a: nat, j: nat, h: nat, typed: bool)
    requires i < |s.jobs| && j < |s.jobs| && TaskStep(s, i, a).Next?
    ensures var n := TaskStep(s, i, a).s;
      && |n.jobs| == |s.jobs| && n.awaits == s.awaits
      && TaskStep(WithAwait(s, j, h, typed), i, a) == Next(WithAwait(n, j, h, typed))
  {
    hide Trampoline, Advance;
    var b := s.jobs[i];
    var t := b.task.value;
    match Trampoline(|b.args|, b.target.isVoid)[t.pc]
    case LoadField(k) => AdvanceUnnoticed(s, i, t.(vals := t.vals + [s.heap[b.packed].fields[k].value]), j, h, typed);
    case FreeArgs => AdvanceUnnoticed(s.(heap := Free(s.heap, b.packed)), i, t, j, h, typed);
    case CallTarget =>
      AdvanceUnnoticed(s, i, t.(value := if b.target.isVoid then None else Some(b.target.f(t.vals))), j, h, typed);
    case MallocResult => AdvanceUnnoticed(s.(heap := s.heap[a := Result(None, i)]), i, t.(result := a), j, h, typed);
    case StoreResult =>
      AdvanceUnnoticed(s.(heap := s.heap[t.result := s.heap[t.result].(value := t.value)]), i, t, j, h, typed);
    case Exit => AdvanceUnnoticed(s, i, t, j, h, typed);
  }

  lemma AdvanceUnnoticed(s: System, i: nat, t: Task, j: nat, h: nat, typed: bool)
    requires i < |s.jobs| && j < |s.jobs|
    ensures |Advance(s, i, t).jobs| == |s.jobs| && Advance(s, i, t).awaits == s.awaits
    ensures Advance(WithAwait(s, j, h, typed), i, t) == WithAwait(Advance(s, i, t), j, h, typed)
  {
    assert Advance(WithAwait(s, j, h, typed), i, t).jobs == WithAwait(Advance(s, i, t), j, h, typed).jobs;
  }

  lemma AwaitUnnoticed(s: System, k: nat, j: nat, h: nat, typed: bool)
    requires k < |s.awaits| && j < |s.jobs| && AwaitStep(s, k).Next?
    ensures var n := AwaitStep(s, k).s;
      && n.jobs == s.jobs && |n.awaits| == |s.awaits|
      && AwaitStep(WithAwait(s, j, h, typed), k) == Next(WithAwait(n, j, h, typed))
  {
    hide AwaitSite, Exited;
    ExitedAlike(s, j, h, typed);
    var n, y := AwaitStep(s, k).s, AwaitStep(WithAwait(s, j, h, typed), k).s;
    assert y.heap == n.heap;
    assert y.awaits == WithAwait(n, j, h, typed).awaits;
  }

  lemma ExitedAlike(s: System, j: nat, h: nat, typed: bool)
    requires j < |s.jobs|
    ensures forall i: nat :: Exited(WithAwait(s, j, h, typed), i) <==> Exited(s, i)
    ensures forall i: nat | Exited(s, i) ::
      i < |s.jobs| && s.jobs[i].task.Some? && WithAwait(s, j, h, typed).jobs[i].task == s.jobs[i].task
  {
    hide Trampoline;
  }

  /** An unfinished await can be brought to where it frees the handle. */
  lemma {:induction false} Approach(s: System, k: nat, h: nat, typed: bool) returns (cs: seq<Choice>, n: System)
    requires Good(s) && k < |s.awaits| && !Finished(s.awaits[k])
    ensures (forall c | c in cs :: Moving(c)) && Good(n) && |n.awaits| == |s.awaits| && |n.jobs| == |s.jobs|
    ensures s.awaits[k].job < |s.jobs| && AboutToFree(n, k) && n.awaits[k].handle == s.awaits[k].handle
    ensures Run(WithAwait(s, s.awaits[k].job, h, typed), cs) == Next(WithAwait(n, s.awaits[k].job, h, typed))
    decreases Work(s)
  {
    hide Good, Step, Settled, Allowed, Work, AwaitSite, WithAwait;
    JobOfAwait(s, k);
    if AboutToFree(s, k) {
      cs, n := [], s;
    } else {
      var a := NextAddress(s);
      assert !Settled(s) by { Unsettled(s, k); }
      NeverDeadlocked(s, a);
      var c :| Moving(c) && Step(s, c).Next?;
      MovingAllowed(s, c);
      StepGood(s, c);
      StepWorks(s, c);
      var m := Step(s, c).s;
      WorkNonNegative(m);
      StepMoves(s, c, k);
      StepUnnoticed(s, c, s.awaits[k].job, h, typed);
      var rest;
      rest, n := Approach(m, k, h, typed);
      cs := [c] + rest;
      assert cs[1..] == rest;
    }
  }

  predicate AboutToFree(s: System, k: nat) {
    k < |s.awaits| && s.awaits[k].pc + 1 == |AwaitSite(s.awaits[k].typed)|
  }

  lemma Unsettled(s: System, k: nat)
    requires k < |s.awaits| && !Finished(s.awaits[k])
    ensures !Settled(s)
  {
  }

  lemma JobOfAwait(s: System, k: nat)
    requires Good(s) && k < |s.awaits|
    ensures s.awaits[k].job < |s.jobs| && s.jobs[s.awaits[k].job].task.Some?
    ensures s.awaits[k].handle == s.jobs[s.awaits[k].job].handle
  {
    assert AwaitOk(s, k);
  }

  /** A step moves an await by one instruction at most. */
  lemma StepMoves(s: System, c: Choice, k: nat)
    requires Good(s) && Moving(c) && Step(s, c).Next? && k < |s.awaits| && !Finished(s.awaits[k]) && !AboutToFree(s, k)
    ensures var n := Step(s, c).s;
      && |n.awaits| == |s.awaits| && |n.jobs| == |s.jobs| && !Finished(n.awaits[k])
      && n.awaits[k].job == s.awaits[k].job && n.awaits[k].handle == s.awaits[k].handle
  {
    hide SpawnSite, Trampoline;
    assert AwaitOk(s, k);
    AwaitCode(s.awaits[k].typed);
  }

  /** A task awaited again while its first await is under way: some schedule uses the
      freed handle. */
  lemma SecondAwaitCanFault(s: System, k: nat, typed: bool) returns (cs: seq<Choice>)
    requires Good(s) && k < |s.awaits| && !Finished(s.awaits[k])
    ensures (forall c | c in cs :: Moving(c)) && Run(s, [BeginAwait(s.awaits[k].job, typed)] + cs).Fault?
  {
    hide Good, AwaitSite;
    JobOfAwait(s, k);
    var j, h := s.awaits[k].job, s.awaits[k].handle;
    var path, n := Approach(s, k, h, typed);
    var x := WithAwait(s, j, h, typed);
    var y := WithAwait(n, j, h, typed);
    cs := path + [StepAwait(k), StepAwait(|s.awaits|)];
    FreesHandle(n, k, j, h, typed);
    RunAppend(x, path, [StepAwait(k), StepAwait(|s.awaits|)]);
    assert Step(s, BeginAwait(j, typed)) == Next(x);
    var all := [BeginAwait(j, typed)] + cs;
    assert all[1..] == cs;
  }

  /** The first await frees the handle, and the second one joins on it. */
  lemma FreesHandle(n: System, k: nat, j: nat, h: nat, typed: bool)
    requires Good(n) && AboutToFree(n, k) && j < |n.jobs| && h == n.awaits[k].handle
    ensures Run(WithAwait(n, j, h, typed), [StepAwait(k), StepAwait(|n.awaits|)]).Fault?
  {
    assert AwaitOk(n, k);
    AwaitStepGood(n, k);
    var w := n.awaits[k];
    assert Local(n, w.job);
    AwaitCode(w.typed);
    AwaitCode(typed);
    var y := WithAwait(n, j, h, typed);
    var z := Step(y, StepAwait(k)).s;
    assert Step(y, StepAwait(k)).Next? && h !in z.heap;
    assert Step(z, StepAwait(|n.awaits|)).Fault?;
    assert [StepAwait(k), StepAwait(|n.awaits|)][1..] == [StepAwait(|n.awaits|)];
  }

  lemma {:induction false} RunAppend(s: System, cs: seq<Choice>, ds: seq<Choice>)
    requires Run(s, cs).Next?
    ensures Run(s, cs + ds) == Run(Run(s, cs).s, ds)
    decreases |cs|
  {
    hide Step;
    if cs == [] {
      assert cs + ds == ds;
    } else {
      assert (cs + ds)[1..] == cs[1..] + ds;
      match Step(s, cs[0])
      case Blocked => RunAppend(s, cs[1..], ds);
      case Next(n) => RunAppend(n, cs[1..], ds);
    }
  }

  lemma RunOne(s: System, c: Choice)
    ensures Run(s, [c]).Fault? <==> Step(s, c).Fault?
  {
    hide Step;
    assert [c][1..] == [];
    if Step(s, c).Next? { assert Run(Step(s, c).s, []).Next?; }
  }

  /** After the first await has finished, a second one faults at once exactly when
      no new task's handle has been put at the freed address; else it awaits that
      other task. */
  lemma LateAwaitFaultsIff(s: System, k: nat, typed: bool)
    requires Good(s) && k < |s.awaits| && Finished(s.awaits[k])
    ensures var h := s.awaits[k].handle;
      && (Run(s, [BeginAwait(s.awaits[k].job, typed), StepAwait(|s.awaits|)]).Fault? <==>
            !(h in s.heap && s.heap[h].Handle?))
      && (h in s.heap && s.heap[h].Handle? ==> s.heap[h].thread != s.awaits[k].job)
  {
    assert AwaitOk(s, k);
    AwaitCode(typed);
    AwaitCode(s.awaits[k].typed);
    var w := s.awaits[k];
    assert Local(s, w.job);
    var n := Step(s, BeginAwait(w.job, typed)).s;
    var two := [BeginAwait(w.job, typed), StepAwait(|s.awaits|)];
    var one := [StepAwait(|s.awaits|)];
    assert two[1..] == one && one[1..] == [];
    assert Run(s, two) == Run(n, one);
    assert Run(n, one).Fault? <==> Step(n, StepAwait(|s.awaits|)).Fault? by { RunOne(n, StepAwait(|s.awaits|)); }
    assert Step(n, StepAwait(|s.awaits|)).Fault? <==> !(w.handle in s.heap && s.heap[w.handle].Handle?);
  }
}
