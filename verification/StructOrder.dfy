/** Completing struct types across files (src/IRBuilder/IRGen_decl.cpp): the loop that
    orders struct bodies by parent and by-value fields, and the layout of one struct. */
module StructOrder {
  import opened Wrappers

  /** What a field's type resolves to. */
  datatype FieldType = ByValue(struct: string) | Other(id: int) | Unresolved

  datatype Field = Field(name: string, ftype: FieldType)

  datatype Decl = Decl(name: string, parent: Option<string>, fields: seq<Field>)

  type Pending = map<string, Decl>

  predicate Keyed(pending: Pending) { forall n | n in pending :: pending[n].name == n }

  /** Fields whose type does not resolve are reported and left out. */
  function Resolved(fs: seq<Field>): seq<Field> {
    if fs == [] then []
    else (if fs[0].ftype.Unresolved? then [] else [fs[0]]) + Resolved(fs[1..])
  }

  /** The struct types a body needs by value, besides the struct itself. */
  function Needs(d: Decl): set<string> {
    set f | f in d.fields && f.ftype.ByValue? && f.ftype.struct != d.name :: f.ftype.struct
  }

  function HasFields(d: Decl): bool { d.parent.Some? || Resolved(d.fields) != [] }

  /** The registry's field lists and the LLVM bodies that are set; a type without
      fields is a skeleton or empty, one without a body is opaque. */
  class TypeTables {
    var fields: map<string, seq<Field>>
    var bodies: map<string, seq<FieldType>>
    var parents: map<string, string>

    constructor (fields: map<string, seq<Field>>, bodies: map<string, seq<FieldType>>, parents: map<string, string>)
      ensures this.fields == fields && this.bodies == bodies && this.parents == parents
    {
      this.fields, this.bodies, this.parents := fields, bodies, parents;
    }

    ghost function State(): Tables reads this { Tables(fields, bodies, parents) }

    /** visitStructDecl. */
    method VisitStructDecl(d: Decl)
      modifies this
      ensures State() == Visit(old(State()), d)
    {
      if d.name in fields && fields[d.name] != [] { return; }
      if d.name in bodies { return; }
      if d.name !in fields { fields := fields[d.name := []]; }
      var own: seq<Field> := [];
      var types: seq<FieldType> := [];
      if d.parent.Some? {
        var p := d.parent.value;
        if p !in fields || fields[p] == [] { return; }
        if p !in bodies { return; }
        types := bodies[p];
        own := fields[p];
      }
      own, types := AppendFields(d.fields, own, types);
      bodies := bodies[d.name := types];
      fields := fields[d.name := own];
      if d.parent.Some? { parents := parents[d.name := d.parent.value]; }
      assert fields == Visit(old(State()), d).fields;
    }

    /** The loop over the declared fields. */
    static method AppendFields(fs: seq<Field>, own0: seq<Field>, types0: seq<FieldType>)
      returns (own: seq<Field>, types: seq<FieldType>)
      ensures own == own0 + Resolved(fs) && types == types0 + Types(Resolved(fs))
    {
      hide Resolved, Types;
      own, types := own0, types0;
      ResolvedNone();
      assert fs[0..] == fs;
      for i := 0 to |fs|
        invariant own + Resolved(fs[i..]) == own0 + Resolved(fs)
        invariant types + Types(Resolved(fs[i..])) == types0 + Types(Resolved(fs))
      {
        var f := fs[i];
        ResolvedStep(fs, i);
        if !f.ftype.Unresolved? {
          TypesCons(f, Resolved(fs[i + 1..]));
          types := types + [f.ftype];
          own := own + [f];
        }
      }
      assert fs[|fs|..] == [];
    }

    /** The gate of the loop: the parent is known with fields, and every struct the
        body contains by value has a body. */
    method ReadyToVisit(d: Decl) returns (ready: bool)
      ensures ready == Gate(State(), d)
    {
      if d.parent.Some? {
        if d.parent.value !in fields || fields[d.parent.value] == [] { return false; }
      }
      for i := 0 to |d.fields|
        invariant forall k | 0 <= k < i :: FieldReady(State(), d, d.fields[k])
      {
        var t := d.fields[i].ftype;
        if t.ByValue? && t.struct != d.name && t.struct !in bodies { return false; }
      }
      return true;
    }

    /** One pass over the pending structs in the order the map iterates them. */
    method Pass(pending: Pending, order: seq<string>, done: set<string>, ghost start: Tables, ghost log: seq<string>)
      returns (done': set<string>, progress: bool, ghost log': seq<string>)
      requires Keyed(pending) && (forall n | n in order :: n in pending)
      requires Invariant(pending, start, State(), done, log)
      modifies this
      ensures Invariant(pending, start, State(), done', log') && done <= done'
      ensures Inherits(old(State())) ==> Inherits(State())
      ensures progress <==> done' != done
      ensures !progress ==>
        && State() == old(State()) && log' == log
        && forall n | n in order && n !in done :: !Gate(State(), pending[n])
    {
      done', progress, log' := done, false, log;
      for i := 0 to |order|
        invariant Invariant(pending, start, State(), done', log') && done <= done'
        invariant Inherits(old(State())) ==> Inherits(State())
        invariant progress <==> done' != done
        invariant !progress ==>
          && State() == old(State()) && log' == log
          && forall n | n in order[..i] && n !in done :: !Gate(State(), pending[n])
      {
        var name := order[i];
        if name in done' { continue; }
        var ready := ReadyToVisit(pending[name]);
        if !ready { continue; }
        StepKeeps(pending, start, State(), done', log', name);
        log' := if CanComplete(State(), pending[name]) then log' + [name] else log';
        if Inherits(State()) { VisitInherits(State(), pending[name]); }
        VisitStructDecl(pending[name]);
        done' := done' + {name};
        progress := true;
      }
    }

    /** The whole loop. `orders` is whatever sequence of iteration orders the
        unordered map produces. */
    method CompleteAll(pending: Pending, orders: nat -> seq<string>)
      returns (done: set<string>, ghost completed: set<string>, ghost log: seq<string>)
      requires Keyed(pending) && Fresh(pending, State())
      requires forall k: nat, n :: n in orders(k) <==> n in pending
      modifies this
      ensures completed == NewBodies(old(State()), State())
      ensures Least(pending, old(State()), completed)
      ensures Topological(pending, old(State()), log) && completed == Range(log)
      ensures Laid(pending, old(State()), State())
      ensures Inherits(old(State())) ==> Inherits(State())
    {
      hide Inherits, Gate, Enabled, LaidOut, Topological, Least;
      ghost var start := State();
      done, log := {}, [];
      var progress, round := true, 0;
      StartInvariant(pending, start);
      while progress
        invariant Invariant(pending, start, State(), done, log)
        invariant !progress ==> forall n | n in pending && n !in done :: !Gate(State(), pending[n])
        invariant Inherits(start) ==> Inherits(State())
        decreases pending.Keys - done, progress
      {
        ghost var before := done;
        DoneIsPending(pending, start, State(), done, log);
        done, progress, log := Pass(pending, orders(round), done, start, log);
        DoneIsPending(pending, start, State(), done, log);
        if progress { assert before < done; assert pending.Keys - done < pending.Keys - before; }
        round := round + 1;
      }
      completed := NewBodies(start, State());
      Finished(pending, start, State(), done, log);
    }
  }

  // ---------------------------------------------------------------- specification

  datatype Tables = Tables(fields: map<string, seq<Field>>, bodies: map<string, seq<FieldType>>,
                           parents: map<string, string>)

  function Types(fs: seq<Field>): (ts: seq<FieldType>)
    ensures |ts| == |fs| && forall i | 0 <= i < |fs| :: ts[i] == fs[i].ftype
  {
    seq(|fs|, i requires 0 <= i < |fs| => fs[i].ftype)
  }

  lemma ResolvedNone()
    ensures Resolved([]) == [] && Types([]) == []
  {
  }

  lemma ResolvedStep(fs: seq<Field>, i: nat)
    requires i < |fs|
    ensures Resolved(fs[i..]) ==
      if fs[i].ftype.Unresolved? then Resolved(fs[i + 1..]) else [fs[i]] + Resolved(fs[i + 1..])
  {
    assert fs[i..][0] == fs[i] && fs[i..][1..] == fs[i + 1..];
  }

  lemma TypesCons(f: Field, fs: seq<Field>)
    ensures Types([f] + fs) == [f.ftype] + Types(fs)
  {
  }

  /** Fields that do not resolve are left out, the others stay in order. */
  lemma {:induction false} ResolvedJoin(fs: seq<Field>, f: Field, gs: seq<Field>)
    ensures Resolved(fs + [f] + gs) == Resolved(fs) + (if f.ftype == Unresolved then [] else [f]) + Resolved(gs)
    decreases |fs|
  {
    hide Resolved;
    ResolvedNone();
    if fs == [] {
      ResolvedCons(f, gs);
      assert fs + [f] + gs == [f] + gs;
    } else {
      ResolvedJoin(fs[1..], f, gs);
      ResolvedCons(fs[0], fs[1..] + [f] + gs);
      ResolvedCons(fs[0], fs[1..]);
      assert fs + [f] + gs == [fs[0]] + (fs[1..] + [f] + gs);
      assert [fs[0]] + fs[1..] == fs;
    }
  }

  lemma ResolvedCons(f: Field, fs: seq<Field>)
    ensures Resolved([f] + fs) == (if f.ftype == Unresolved then [] else [f]) + Resolved(fs)
  {
    assert ([f] + fs)[1..] == fs;
  }

  predicate ParentReady(t: Tables, d: Decl) {
    d.parent.Some? ==> d.parent.value in t.fields && t.fields[d.parent.value] != []
  }

  predicate FieldReady(t: Tables, d: Decl, f: Field) {
    f.ftype.ByValue? && f.ftype.struct != d.name ==> f.ftype.struct in t.bodies
  }

  ghost predicate Gate(t: Tables, d: Decl) {
    ParentReady(t, d) && forall k | 0 <= k < |d.fields| :: FieldReady(t, d, d.fields[k])
  }

  /** Whether a visit sets the body. */
  predicate CanComplete(t: Tables, d: Decl) {
    && !(d.name in t.fields && t.fields[d.name] != []) && d.name !in t.bodies
    && ParentReady(t, d) && (d.parent.Some? ==> d.parent.value in t.bodies)
  }

  function Visit(t: Tables, d: Decl): Tables {
    if CanComplete(t, d) then
      var p := d.parent;
      Tables(
        t.fields[d.name := (if p.Some? then t.fields[p.value] else []) + Resolved(d.fields)],
        t.bodies[d.name := (if p.Some? then t.bodies[p.value] else []) + Types(Resolved(d.fields))],
        if p.Some? then t.parents[d.name := p.value] else t.parents)
    else if d.name !in t.fields && d.name !in t.bodies then t.(fields := t.fields[d.name := []])
    else t
  }

  /** Every pending struct is registered at least as a skeleton. */
  ghost predicate Fresh(pending: Pending, t: Tables) { pending.Keys <= t.fields.Keys }

  function NewBodies(start: Tables, t: Tables): set<string> { t.bodies.Keys - start.bodies.Keys }

  /** Given that the structs in `c` were completed, `d` can be. */
  ghost predicate Enabled(pending: Pending, start: Tables, c: set<string>, d: Decl) {
    && d.name in start.fields && start.fields[d.name] == [] && d.name !in start.bodies
    && (d.parent.Some? ==>
          var p := d.parent.value;
          || (p in c && p in pending && HasFields(pending[p]))
          || (p in start.fields && start.fields[p] != [] && p in start.bodies))
    && (forall s | s in Needs(d) :: s in c || s in start.bodies)
  }

  ghost predicate Closed(pending: Pending, start: Tables, c: set<string>)
    requires Fresh(pending, start) && Keyed(pending)
  {
    forall n | n in pending && Enabled(pending, start, c, pending[n]) :: n in c
  }

  /** `c` is the least closed set. */
  ghost predicate Least(pending: Pending, start: Tables, c: set<string>)
    requires Fresh(pending, start) && Keyed(pending)
  {
    Closed(pending, start, c) && forall other | Closed(pending, start, other) :: c <= other
  }

  function Range(s: seq<string>): set<string> { set n | n in s }

  /** Each struct in the order comes after everything it depends on, and once. */
  ghost predicate Topological(pending: Pending, start: Tables, log: seq<string>) {
    && (forall i, j | 0 <= i < j < |log| :: log[i] != log[j])
    && (forall i | 0 <= i < |log| :: log[i] in pending && log[i] in start.fields
          && Enabled(pending, start, Range(log[..i]), pending[log[i]]))
  }

  /** Completed structs are laid out as their parent's fields followed by their own;
      nothing else changed. */
  ghost predicate Laid(pending: Pending, start: Tables, t: Tables) {
    && start.bodies.Keys <= t.bodies.Keys
    && (forall n | n in start.bodies :: t.bodies[n] == start.bodies[n])
    && t.fields.Keys == start.fields.Keys
    && (forall n | n in start.fields && n !in NewBodies(start, t) :: t.fields[n] == start.fields[n])
    && (forall n | n in NewBodies(start, t) :: n in pending && pending[n].name == n && n in t.fields && LaidOut(pending[n], t))
  }

  ghost predicate LaidOut(d: Decl, t: Tables)
    requires d.name in t.fields && d.name in t.bodies
  {
    if d.parent.Some? then
      var p := d.parent.value;
      && p in t.fields && p in t.bodies && p != d.name && t.fields[p] != []
      && t.fields[d.name] == t.fields[p] + Resolved(d.fields)
      && t.bodies[d.name] == t.bodies[p] + Types(Resolved(d.fields))
      && d.name in t.parents && t.parents[d.name] == p
    else
      && t.fields[d.name] == Resolved(d.fields)
      && t.bodies[d.name] == Types(Resolved(d.fields))
  }

  /** A visit that passed the gate did nothing, and none ever will do anything. */
  ghost predicate Blocked(start: Tables, d: Decl)
    requires d.name in start.fields
  {
    || start.fields[d.name] != [] || d.name in start.bodies
    || (d.parent.Some? && d.parent.value in start.fields && start.fields[d.parent.value] != []
        && d.parent.value !in start.bodies)
  }

  /** What every pass of the loop keeps. */
  ghost predicate Invariant(pending: Pending, start: Tables, t: Tables, done: set<string>, log: seq<string>) {
    && Fresh(pending, start) && Keyed(pending) && done <= pending.Keys
    && Laid(pending, start, t)
    && Range(log) == NewBodies(start, t) && Range(log) <= done
    && Topological(pending, start, log)
    && (forall n | n in done && n !in NewBodies(start, t) :: Blocked(start, pending[n]))
  }

  // ---------------------------------------------------------------- proof

  lemma StartInvariant(pending: Pending, start: Tables)
    requires Keyed(pending) && Fresh(pending, start)
    ensures Invariant(pending, start, start, {}, [])
  {
  }

  lemma DoneIsPending(pending: Pending, start: Tables, t: Tables, done: set<string>, log: seq<string>)
    requires Invariant(pending, start, t, done, log)
    ensures done <= pending.Keys
  {
  }

  /** A struct whose fields are known has a body only through the loop or before it. */
  lemma CompletedParent(pending: Pending, start: Tables, t: Tables, done: set<string>, log: seq<string>, p: string)
    requires Invariant(pending, start, t, done, log) && p in t.fields && t.fields[p] != [] && p in t.bodies
    ensures (p in Range(log) && p in pending && HasFields(pending[p]))
      || (p in start.fields && start.fields[p] != [] && p in start.bodies)
  {
    if p in NewBodies(start, t) { assert LaidOut(pending[p], t); }
  }

  lemma GateEnables(pending: Pending, start: Tables, t: Tables, done: set<string>, log: seq<string>, name: string)
    requires Invariant(pending, start, t, done, log) && name in pending && name !in done
    requires Gate(t, pending[name]) && CanComplete(t, pending[name])
    ensures Enabled(pending, start, Range(log), pending[name])
  {
    var d := pending[name];
    assert name !in NewBodies(start, t);
    if d.parent.Some? { CompletedParent(pending, start, t, done, log, d.parent.value); }
    forall s | s in Needs(d) ensures s in Range(log) || s in start.bodies {
      var f :| f in d.fields && f.ftype.ByValue? && f.ftype.struct != d.name && s == f.ftype.struct;
      var k :| 0 <= k < |d.fields| && d.fields[k] == f;
      assert FieldReady(t, d, d.fields[k]);
    }
  }

  lemma GateBlocks(pending: Pending, start: Tables, t: Tables, done: set<string>, log: seq<string>, name: string)
    requires Invariant(pending, start, t, done, log) && name in pending && name !in done
    requires Gate(t, pending[name]) && !CanComplete(t, pending[name])
    ensures Blocked(start, pending[name]) && Visit(t, pending[name]) == t
  {
    assert name !in NewBodies(start, t);
    var d := pending[name];
    if d.parent.Some? {
      var p := d.parent.value;
      if p in NewBodies(start, t) { assert p in t.bodies; }
    }
  }

  lemma LogExtends(pending: Pending, start: Tables, log: seq<string>, name: string)
    requires Topological(pending, start, log) && name in pending && name in start.fields && name !in log
    requires Enabled(pending, start, Range(log), pending[name])
    ensures Topological(pending, start, log + [name]) && Range(log + [name]) == Range(log) + {name}
  {
    var l := log + [name];
    forall i | 0 <= i < |l| ensures Enabled(pending, start, Range(l[..i]), pending[l[i]]) {
      if i < |log| { assert l[..i] == log[..i]; } else { assert l[..i] == log; }
    }
  }

  lemma VisitLays(pending: Pending, start: Tables, t: Tables, done: set<string>, log: seq<string>, name: string)
    requires Invariant(pending, start, t, done, log) && name in pending && name !in done
    requires Gate(t, pending[name]) && CanComplete(t, pending[name])
    ensures Laid(pending, start, Visit(t, pending[name]))
    ensures NewBodies(start, Visit(t, pending[name])) == NewBodies(start, t) + {name}
  {
    var d := pending[name];
    var u := Visit(t, d);
    assert name !in NewBodies(start, t);
    assert NewBodies(start, u) == NewBodies(start, t) + {name};
    forall n | n in NewBodies(start, u) ensures n in pending && pending[n].name == n && n in u.fields && LaidOut(pending[n], u) {
      if n != name {
        assert LaidOut(pending[n], t);
        assert pending[n].name == n;
      }
    }
  }

  lemma StepKeeps(pending: Pending, start: Tables, t: Tables, done: set<string>, log: seq<string>, name: string)
    requires Invariant(pending, start, t, done, log) && name in pending && name !in done && Gate(t, pending[name])
    ensures Invariant(pending, start, Visit(t, pending[name]), done + {name},
                      if CanComplete(t, pending[name]) then log + [name] else log)
  {
    hide Gate, CanComplete, Enabled, Laid, Visit, Blocked;
    if CanComplete(t, pending[name]) {
      GateEnables(pending, start, t, done, log, name);
      VisitLays(pending, start, t, done, log, name);
      LogExtends(pending, start, log, name);
    } else {
      GateBlocks(pending, start, t, done, log, name);
    }
  }

  lemma EnabledMonotone(pending: Pending, start: Tables, c: set<string>, e: set<string>, d: Decl)
    requires d.name in start.fields && c <= e && Enabled(pending, start, c, d)
    ensures Enabled(pending, start, e, d)
  {
  }

  /** Whatever is closed contains everything completed so far. */
  lemma {:induction false} InEveryClosedSet(pending: Pending, start: Tables, log: seq<string>, other: set<string>, k: nat)
    requires Keyed(pending) && Fresh(pending, start) && Topological(pending, start, log) && k <= |log|
    requires Closed(pending, start, other)
    ensures Range(log[..k]) <= other
  {
    if k > 0 {
      InEveryClosedSet(pending, start, log, other, k - 1);
      EnabledMonotone(pending, start, Range(log[..k - 1]), other, pending[log[k - 1]]);
      assert log[..k] == log[..k - 1] + [log[k - 1]];
    }
  }

  /** When no pending struct can be visited any more, nothing is missing. */
  lemma Finished(pending: Pending, start: Tables, t: Tables, done: set<string>, log: seq<string>)
    requires Invariant(pending, start, t, done, log)
    requires forall n | n in pending && n !in done :: !Gate(t, pending[n])
    ensures Least(pending, start, NewBodies(start, t))
  {
    var c := NewBodies(start, t);
    forall n | n in pending && Enabled(pending, start, c, pending[n]) ensures n in c {
      if n !in c {
        if n in done {
          NeverBlocked(pending, start, t, done, log, pending[n]);
        } else {
          EnabledGate(pending, start, t, done, log, pending[n]);
        }
      }
    }
    forall other | Closed(pending, start, other) ensures c <= other {
      InEveryClosedSet(pending, start, log, other, |log|);
      assert log[..|log|] == log;
    }
  }

  lemma NeverBlocked(pending: Pending, start: Tables, t: Tables, done: set<string>, log: seq<string>, d: Decl)
    requires Invariant(pending, start, t, done, log) && d.name in start.fields
    requires Enabled(pending, start, NewBodies(start, t), d)
    ensures !Blocked(start, d)
  {
    if d.parent.Some? && d.parent.value in Range(log) {
      var k :| 0 <= k < |log| && log[k] == d.parent.value;
      assert Enabled(pending, start, Range(log[..k]), pending[log[k]]);
    }
  }

  lemma EnabledGate(pending: Pending, start: Tables, t: Tables, done: set<string>, log: seq<string>, d: Decl)
    requires Invariant(pending, start, t, done, log) && d.name in start.fields
    requires Enabled(pending, start, NewBodies(start, t), d)
    ensures Gate(t, d)
  {
    if d.parent.Some? {
      var p := d.parent.value;
      if p in NewBodies(start, t) && p in pending && HasFields(pending[p]) {
        assert LaidOut(pending[p], t);
      } else {
        assert p !in NewBodies(start, t);
      }
    }
    forall k | 0 <= k < |d.fields| ensures FieldReady(t, d, d.fields[k]) {
      var f := d.fields[k];
      if f.ftype.ByValue? && f.ftype.struct != d.name {
        assert f in d.fields;
        assert f.ftype.struct in Needs(d);
      }
    }
  }

  /** The completed set does not depend on the order of iteration. */
  lemma LeastIsUnique(pending: Pending, start: Tables, a: set<string>, b: set<string>)
    requires Keyed(pending) && Fresh(pending, start) && Least(pending, start, a) && Least(pending, start, b)
    ensures a == b
  {
    assert a <= b && b <= a;
  }

  // ---------------------------------------------------------------- when everything is completed

  /** The structs that had no body before the loop. */
  function Open(pending: Pending, start: Tables): set<string> { pending.Keys - start.bodies.Keys }

  function Below(pending: Pending, start: Tables, rank: map<string, nat>, k: nat): set<string>
    requires Open(pending, start) <= rank.Keys
  {
    set m | m in Open(pending, start) && rank[m] < k
  }

  /** Dependencies go down in `rank` and end in completed types; parents have fields. */
  ghost predicate Ranked(pending: Pending, start: Tables, rank: map<string, nat>)
    requires Fresh(pending, start) && Keyed(pending)
  {
    && Open(pending, start) <= rank.Keys
    && forall n | n in Open(pending, start) :: Enabled(pending, start, Below(pending, start, rank, rank[n]), pending[n])
  }

  lemma {:induction false} RankedCompletes(pending: Pending, start: Tables, rank: map<string, nat>, c: set<string>, k: nat)
    requires Keyed(pending) && Fresh(pending, start) && Ranked(pending, start, rank) && Closed(pending, start, c)
    ensures forall n | n in Open(pending, start) && rank[n] < k :: n in c
  {
    if k > 0 {
      RankedCompletes(pending, start, rank, c, k - 1);
      forall n | n in Open(pending, start) && rank[n] < k ensures n in c {
        var lower := Below(pending, start, rank, rank[n]);
        EnabledMonotone(pending, start, lower, c, pending[n]);
      }
    }
  }

  /** Every pending struct has a body in the end, completed now or before, exactly when
      the dependencies of those without one can be ranked. */
  lemma AllCompletedIff(pending: Pending, start: Tables, c: set<string>, log: seq<string>)
    requires Keyed(pending) && Fresh(pending, start)
    requires Least(pending, start, c) && Topological(pending, start, log) && c == Range(log)
    ensures pending.Keys <= c + start.bodies.Keys <==> exists rank :: Ranked(pending, start, rank)
  {
    if rank :| Ranked(pending, start, rank) {
      forall n | n in Open(pending, start) ensures n in c {
        RankedCompletes(pending, start, rank, c, rank[n] + 1);
      }
      assert forall n | n in pending :: n in Open(pending, start) || n in start.bodies;
    }
    if pending.Keys <= c + start.bodies.Keys {
      var rank := map n | n in Open(pending, start) :: Position(log, n);
      forall n | n in Open(pending, start)
        ensures Enabled(pending, start, Below(pending, start, rank, rank[n]), pending[n])
      {
        var i := Position(log, n);
        PositionOf(log, n);
        forall m | m in log[..i] ensures m in Open(pending, start) && rank[m] < rank[n] {
          var j :| 0 <= j < i && log[j] == m;
          assert Enabled(pending, start, Range(log[..j]), pending[log[j]]);
          PositionOf(log, m);
        }
        EnabledMonotone(pending, start, Range(log[..i]), Below(pending, start, rank, rank[n]), pending[n]);
      }
      assert Ranked(pending, start, rank);
    }
  }

  function Position(s: seq<string>, n: string): nat {
    if s == [] then 0 else if s[0] == n then 0 else 1 + Position(s[1..], n)
  }

  lemma PositionOf(s: seq<string>, n: string)
    requires n in s
    ensures Position(s, n) < |s| && s[Position(s, n)] == n
    ensures n !in s[..Position(s, n)]
  {
    if s[0] != n {
      PositionOf(s[1..], n);
      var k := Position(s[1..], n);
      assert s[..k + 1] == [s[0]] + s[1..][..k];
    }
  }

  // ---------------------------------------------------------------- inheritance

  /** Each child starts with its parent's fields and elements, index by index. */
  ghost predicate Inherits(t: Tables) {
    && (forall n | n in t.parents :: n in t.fields && n in t.bodies && t.parents[n] in t.fields && t.parents[n] in t.bodies
          && t.fields[t.parents[n]] <= t.fields[n] && t.bodies[t.parents[n]] <= t.bodies[n])
    && (forall n | n in t.fields && n in t.bodies :: |t.fields[n]| == |t.bodies[n]|)
  }

  ghost predicate InheritsAt(u: Tables, n: string)
    requires n in u.parents
  {
    && n in u.fields && n in u.bodies && u.parents[n] in u.fields && u.parents[n] in u.bodies
    && u.fields[u.parents[n]] <= u.fields[n] && u.bodies[u.parents[n]] <= u.bodies[n]
  }

  lemma VisitInherits(t: Tables, d: Decl)
    requires Inherits(t) && Gate(t, d)
    ensures Inherits(Visit(t, d))
  {
    hide Gate, Visit, CanComplete;
    if CanComplete(t, d) {
      var u := Visit(t, d);
      VisitSizes(t, d);
      forall n | n in u.parents ensures InheritsAt(u, n) {
        if n == d.name { VisitPrefix(t, d); } else { VisitOthers(t, d, n); }
      }
      assert forall n | n in u.parents :: InheritsAt(u, n);
    } else {
      VisitNothing(t, d);
    }
  }

  lemma VisitNothing(t: Tables, d: Decl)
    requires !CanComplete(t, d)
    ensures Inherits(t) ==> Inherits(Visit(t, d))
  {
  }

  lemma VisitOthers(t: Tables, d: Decl, n: string)
    requires Inherits(t) && Gate(t, d) && CanComplete(t, d) && n in Visit(t, d).parents && n != d.name
    ensures InheritsAt(Visit(t, d), n)
  {
    assert t.parents[n] != d.name;
  }

  lemma VisitSizes(t: Tables, d: Decl)
    requires Inherits(t) && CanComplete(t, d)
    ensures var u := Visit(t, d);
      forall n | n in u.fields && n in u.bodies :: |u.fields[n]| == |u.bodies[n]|
  {
  }

  lemma VisitPrefix(t: Tables, d: Decl)
    requires Inherits(t) && CanComplete(t, d) && d.name in Visit(t, d).parents
    ensures InheritsAt(Visit(t, d), d.name)
  {
    assert d.name !in t.parents;
    assert d.parent.Some? && d.parent.value != d.name;
  }

  ghost predicate Ancestor(t: Tables, a: string, d: string, depth: nat)
    decreases depth
  {
    if depth == 0 then a == d
    else d in t.parents && Ancestor(t, a, t.parents[d], depth - 1)
  }

  /** First match by name. */
  function FieldIndex(fs: seq<Field>, name: string): Option<nat> {
    if fs == [] then None
    else if fs[0].name == name then Some(0)
    else match FieldIndex(fs[1..], name) case None => None case Some(i) => Some(i + 1)
  }

  /** The field found has the name, and none before it does; none is found only where
      none has it. */
  lemma {:induction false} FieldIndexIs(fs: seq<Field>, name: string)
    ensures match FieldIndex(fs, name)
      case Some(i) => i < |fs| && fs[i].name == name && forall j | 0 <= j < i :: fs[j].name != name
      case None => forall j | 0 <= j < |fs| :: fs[j].name != name
  {
    if fs != [] && fs[0].name != name {
      FieldIndexIs(fs[1..], name);
      assert forall j | 1 <= j < |fs| :: fs[j] == fs[1..][j - 1];
    }
  }

  lemma {:induction false} PrefixIndex(a: seq<Field>, b: seq<Field>, name: string)
    requires a <= b && FieldIndex(a, name).Some?
    ensures FieldIndex(b, name) == FieldIndex(a, name) && FieldIndex(a, name).value < |a|
  {
    if a[0].name != name { PrefixIndex(a[1..], b[1..], name); }
  }

  /** Along any chain, an ancestor's field is found at the same index in the
      descendant, where the element has the same type. */
  lemma {:induction false} InheritedIndex(t: Tables, a: string, d: string, depth: nat, name: string)
    requires Inherits(t) && Ancestor(t, a, d, depth) && a in t.fields && a in t.bodies
    requires FieldIndex(t.fields[a], name).Some?
    ensures d in t.fields && d in t.bodies && FieldIndex(t.fields[d], name) == FieldIndex(t.fields[a], name)
    ensures var i := FieldIndex(t.fields[a], name).value;
      i < |t.bodies[a]| && i < |t.bodies[d]| && t.bodies[d][i] == t.bodies[a][i]
    ensures var i := FieldIndex(t.fields[a], name).value;
      i < |t.fields[a]| && i < |t.fields[d]| && t.fields[d][i] == t.fields[a][i] && t.fields[a][i].name == name
    decreases depth
  {
    FieldIndexIs(t.fields[a], name);
    PrefixIndex(t.fields[a], t.fields[a], name);
    if depth > 0 {
      var p := t.parents[d];
      InheritedIndex(t, a, p, depth - 1, name);
      PrefixIndex(t.fields[p], t.fields[d], name);
    }
  }
}
