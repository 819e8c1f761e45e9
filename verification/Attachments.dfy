/** Lazy declaration of extend and impl blocks (src/IRBuilder/IRGen_decl.cpp): a
    memoised pass per namespace that may ask for itself again while it runs. */
module Attachments {
  import opened Wrappers

  /** A type reached while a block is declared: a generic template asks for its own
      attachments, any other type for those of the module it was loaded from. */
  datatype Load = Template(typeName: string) | FromModule(ns: string)

  datatype Symbol =
    | ExtendBlock(typeName: string, methods: set<string>, attaches: bool, loads: seq<Load>)
    | ImplBlock(implemented: string, base: Option<string>, wellFormed: bool, loads: seq<Load>)
    | OtherSymbol

  type Registry = map<string, seq<Symbol>>

  datatype Pass = ExtendPass | ImplPass

  // ---------------------------------------------------------------- the full scan

  /** Whether one symbol is indexed under a type's name. */
  predicate Mentions(s: Symbol, typeName: string) {
    match s
    case ExtendBlock(t, _, _, _) => t == typeName
    case ImplBlock(t, base, wf, _) => wf && (t == typeName || base == Some(typeName))
    case OtherSymbol => false
  }

  /** What asking every module would answer. */
  ghost function Scan(r: Registry, typeName: string): set<string> {
    set ns | ns in r && exists s :: s in r[ns] && Mentions(s, typeName)
  }

  function Lookup(index: map<string, seq<string>>, typeName: string): seq<string> {
    if typeName in index then index[typeName] else []
  }

  function Add(index: map<string, seq<string>>, typeName: string, ns: string): map<string, seq<string>> {
    index[typeName := Lookup(index, typeName) + [ns]]
  }

  function AddSymbol(index: map<string, seq<string>>, s: Symbol, ns: string): map<string, seq<string>> {
    match s
    case ExtendBlock(t, _, _, _) => Add(index, t, ns)
    case ImplBlock(t, base, wf, _) =>
      if !wf then index
      else
        var i := Add(index, t, ns);
        if base.Some? then Add(i, base.value, ns) else i
    case OtherSymbol => index
  }

  lemma AddSymbolMentions(index: map<string, seq<string>>, s: Symbol, ns: string, t: string, m: string)
    ensures m in Lookup(AddSymbol(index, s, ns), t) <==> (m in Lookup(index, t) || (m == ns && Mentions(s, t)))
  {
  }

  /** The index answers for the modules in `seen`, and for the first `k` symbols of `ns`. */
  ghost predicate Indexed(r: Registry, index: map<string, seq<string>>, seen: seq<string>, ns: string, k: nat) {
    forall t, m :: m in Lookup(index, t) <==> IndexedAt(r, seen, ns, k, t, m)
  }

  ghost predicate IndexedAt(r: Registry, seen: seq<string>, ns: string, k: nat, t: string, m: string) {
    || (m in seen && m in r && exists s :: s in r[m] && Mentions(s, t))
    || (m == ns && m in r && exists i :: 0 <= i < k && i < |r[m]| && Mentions(r[m][i], t))
  }

  lemma IndexStep(r: Registry, index: map<string, seq<string>>, seen: seq<string>, ns: string, k: nat)
    requires ns in r && k < |r[ns]| && Indexed(r, index, seen, ns, k)
    ensures Indexed(r, AddSymbol(index, r[ns][k], ns), seen, ns, k + 1)
  {
    forall t, m
      ensures m in Lookup(AddSymbol(index, r[ns][k], ns), t) <==> IndexedAt(r, seen, ns, k + 1, t, m)
    {
      AddSymbolMentions(index, r[ns][k], ns, t, m);
      assert m in Lookup(index, t) <==> IndexedAt(r, seen, ns, k, t, m);
    }
  }

  lemma IndexNext(r: Registry, index: map<string, seq<string>>, seen: seq<string>, ns: string, next: string)
    requires ns in r && Indexed(r, index, seen, ns, |r[ns]|)
    ensures Indexed(r, index, seen + [ns], next, 0)
  {
    forall t, m ensures m in Lookup(index, t) <==> IndexedAt(r, seen + [ns], next, 0, t, m) {
      assert m in Lookup(index, t) <==> IndexedAt(r, seen, ns, |r[ns]|, t, m);
      if m == ns && exists s :: s in r[m] && Mentions(s, t) {
        var s :| s in r[m] && Mentions(s, t);
        var i :| 0 <= i < |r[m]| && r[m][i] == s;
        assert Mentions(r[m][i], t);
      }
    }
  }

  // ---------------------------------------------------------------- the state

  /** `stack`: namespaces being declared, innermost last; `running`: those whose
      extend pass has not finished; `log`: the passes started, in order. */
  datatype PassState = PassState(extended: set<string>, implemented: set<string>, methods: map<string, set<string>>,
                         stack: seq<string>, running: set<string>, log: seq<(Pass, string)>)

  /** Everything the module attaches is registered. */
  ghost predicate Registered(r: Registry, methods: map<string, set<string>>, ns: string) {
    ns in r ==>
      forall s | s in r[ns] && s.ExtendBlock? && s.attaches :: s.typeName in methods && s.methods <= methods[s.typeName]
  }

  /** Some module other than these attaches the method. */
  ghost predicate Attached(r: Registry, typeName: string, name: string, except: set<string>) {
    exists ns, s :: ns !in except && AttachedBy(r, ns, s, typeName, name)
  }

  ghost predicate AttachedBy(r: Registry, ns: string, s: Symbol, typeName: string, name: string) {
    ns != "" && ns in r && s in r[ns] && s.ExtendBlock? && s.attaches && s.typeName == typeName && name in s.methods
  }

  /** One of these modules attaches the method to a type of the chain. */
  ghost predicate AttachedAlong(r: Registry, declared: set<string>, chain: seq<string>, name: string) {
    exists ns, b: Symbol :: ns in declared && b.ExtendBlock? && b.typeName in chain && AttachedBy(r, ns, b, b.typeName, name)
  }

  /** Every method in the table was attached by a declared module. */
  ghost predicate Sourced(r: Registry, declared: set<string>, methods: map<string, set<string>>) {
    forall t, name | t in methods && name in methods[t] :: exists ns, b :: ns in declared && AttachedBy(r, ns, b, t, name)
  }

  ghost predicate Once(s: PassState) {
    && (forall i, j | 0 <= i < j < |s.log| :: s.log[i] != s.log[j])
    && (forall ns :: (ExtendPass, ns) in s.log <==> ns in s.extended)
    && (forall ns :: (ImplPass, ns) in s.log <==> ns in s.implemented)
  }

  /** What holds between any two steps of a run, however deep it is. */
  ghost predicate Good(r: Registry, s: PassState) {
    && s.implemented <= s.extended && "" !in s.extended
    && (forall ns | ns in s.extended && ns !in s.implemented :: ns in s.stack)
    && s.running <= s.extended
    && Once(s)
    && (forall ns | ns in s.extended && ns !in s.running :: Registered(r, s.methods, ns))
    && Sourced(r, s.extended, s.methods)
  }

  ghost predicate Grown(m: map<string, set<string>>, n: map<string, set<string>>) {
    forall t | t in m :: t in n && m[t] <= n[t]
  }

  /** What a call leaves alone, and what it may only add to. `extra` may be left
      declared for extend but not yet for impl. */
  ghost predicate Kept(a: PassState, b: PassState, extra: set<string>) {
    && Grown(a.methods, b.methods) && b.stack == a.stack && b.running == a.running
    && a.extended <= b.extended && a.implemented <= b.implemented
    && b.extended - b.implemented <= (a.extended - a.implemented) + extra
  }

  lemma KeptTrans(a: PassState, b: PassState, c: PassState, extra: set<string>)
    requires Kept(a, b, extra) && Kept(b, c, {})
    ensures Kept(a, c, extra)
  {
    forall t | t in a.methods ensures t in c.methods && a.methods[t] <= c.methods[t] {
      assert t in b.methods;
    }
  }

  lemma GrownRegisters(r: Registry, m: map<string, set<string>>, n: map<string, set<string>>, ns: string)
    requires Grown(m, n) && Registered(r, m, ns)
    ensures Registered(r, n, ns)
  {
  }

  function BeginExtend(s: PassState, ns: string): PassState {
    s.(extended := s.extended + {ns}, running := s.running + {ns}, log := s.log + [(ExtendPass, ns)])
  }

  lemma BeginExtendGood(r: Registry, s: PassState, ns: string)
    requires Good(r, s) && ns !in s.extended && ns != "" && ns in s.stack
    ensures Good(r, BeginExtend(s, ns))
  {
    OnceMore(s, ExtendPass, ns);
    SourcedStill(r, s.extended, BeginExtend(s, ns).extended, s.methods);
  }

  lemma SourcedStill(r: Registry, a: set<string>, b: set<string>, methods: map<string, set<string>>)
    requires Sourced(r, a, methods) && a <= b
    ensures Sourced(r, b, methods)
  {
    forall t, name | t in methods && name in methods[t] ensures exists ns, s :: ns in b && AttachedBy(r, ns, s, t, name) {
      var ns, s :| ns in a && AttachedBy(r, ns, s, t, name);
      assert ns in b;
    }
  }

  lemma OnceMore(s: PassState, p: Pass, ns: string)
    requires Once(s) && ns !in (if p.ExtendPass? then s.extended else s.implemented)
    ensures Once(if p.ExtendPass? then s.(extended := s.extended + {ns}, log := s.log + [(p, ns)])
                 else s.(implemented := s.implemented + {ns}, log := s.log + [(p, ns)]))
  {
    assert (p, ns) !in s.log;
  }

  /** The pass of `ns` is over. */
  lemma EndExtendGood(r: Registry, a: PassState, b: PassState, ns: string)
    requires Good(r, a) && ns !in a.extended && Good(r, b) && Registered(r, b.methods, ns)
    requires Kept(BeginExtend(a, ns), b, {})
    ensures Good(r, b.(running := b.running - {ns})) && Kept(a, b.(running := b.running - {ns}), {ns})
  {
    var c := b.(running := b.running - {ns});
    assert c.running == a.running;
    forall m | m in c.extended && m !in c.running ensures Registered(r, c.methods, m) {
      if m == ns {} else { assert m !in b.running; }
    }
  }

  function BeginImpl(s: PassState, ns: string): PassState {
    s.(implemented := s.implemented + {ns}, log := s.log + [(ImplPass, ns)])
  }

  lemma BeginImplGood(r: Registry, s: PassState, ns: string)
    requires Good(r, s) && ns !in s.implemented && ns in s.extended
    ensures Good(r, BeginImpl(s, ns))
    ensures Kept(s, BeginImpl(s, ns), {})
    ensures BeginImpl(s, ns).extended - BeginImpl(s, ns).implemented == (s.extended - s.implemented) - {ns}
  {
    OnceMore(s, ImplPass, ns);
  }

  function AddMethods(s: PassState, t: string, ms: set<string>): PassState {
    s.(methods := s.methods[t := (if t in s.methods then s.methods[t] else {}) + ms])
  }

  lemma AddMethodsGood(r: Registry, s: PassState, ns: string, b: Symbol)
    requires Good(r, s) && ns in s.extended && ns in r && b in r[ns] && b.ExtendBlock? && b.attaches
    ensures var u := AddMethods(s, b.typeName, b.methods); Good(r, u) && Kept(s, u, {})
  {
    var u := AddMethods(s, b.typeName, b.methods);
    assert Sourced(r, u.extended, u.methods) by { AddMethodsSourced(r, s, ns, b); }
    forall ns | ns in u.extended && ns !in u.running ensures Registered(r, u.methods, ns) {
      GrownRegisters(r, s.methods, u.methods, ns);
    }
  }

  lemma AddMethodsSourced(r: Registry, s: PassState, ns: string, b: Symbol)
    requires Sourced(r, s.extended, s.methods) && "" !in s.extended
    requires ns in s.extended && ns in r && b in r[ns] && b.ExtendBlock? && b.attaches
    ensures Sourced(r, s.extended, AddMethods(s, b.typeName, b.methods).methods)
  {
    var u := AddMethods(s, b.typeName, b.methods);
    forall t, name | t in u.methods && name in u.methods[t]
      ensures exists m, c :: m in s.extended && AttachedBy(r, m, c, t, name)
    {
      if t in s.methods && name in s.methods[t] {
        var m, c :| m in s.extended && AttachedBy(r, m, c, t, name);
      } else {
        assert AttachedBy(r, ns, b, t, name);
      }
    }
  }

  function Remaining(r: Registry, extended: set<string>, implemented: set<string>): nat {
    |r.Keys - extended| + |r.Keys - implemented|
  }

  lemma RemainingShrinks(all: set<string>, declared: set<string>, ns: string)
    requires ns in all && ns !in declared
    ensures |all - (declared + {ns})| < |all - declared|
  {
    assert all - declared == (all - (declared + {ns})) + {ns};
  }

  lemma RemainingMonotone(r: Registry, e1: set<string>, i1: set<string>, e2: set<string>, i2: set<string>)
    requires e1 <= e2 && i1 <= i2
    ensures Remaining(r, e2, i2) <= Remaining(r, e1, i1)
  {
    Smaller(r.Keys - e2, r.Keys - e1);
    Smaller(r.Keys - i2, r.Keys - i1);
  }

  lemma Smaller(a: set<string>, b: set<string>)
    requires a <= b
    ensures |a| <= |b|
  {
    assert b == a + (b - a);
  }

  lemma KeptSame(s: PassState)
    ensures Kept(s, s, {})
  {
  }

  lemma EmptyIndex(r: Registry)
    ensures Indexed(r, map[], [], "", 0)
  {
  }

  lemma Restart(r: Registry, index: map<string, seq<string>>, seen: seq<string>, ns: string)
    requires Indexed(r, index, seen, "", 0)
    ensures Indexed(r, index, seen, ns, 0)
  {
    forall t, m ensures m in Lookup(index, t) <==> IndexedAt(r, seen, ns, 0, t, m) {
      assert m in Lookup(index, t) <==> IndexedAt(r, seen, "", 0, t, m);
    }
  }

  lemma WholeIndex(r: Registry, index: map<string, seq<string>>, order: seq<string>)
    requires Indexed(r, index, order, "", 0) && forall ns :: ns in order <==> ns in r
    ensures forall t, ns :: ns in Lookup(index, t) <==> ns in Scan(r, t)
  {
    forall t, ns ensures ns in Lookup(index, t) <==> ns in Scan(r, t) {
      assert ns in Lookup(index, t) <==> IndexedAt(r, order, "", 0, t, ns);
    }
  }

  lemma LeftShrinks(r: Registry, e: set<string>, i: set<string>, ns: string)
    requires ns in r && ns !in e
    ensures Remaining(r, e + {ns}, i) < Remaining(r, e, i)
  {
    RemainingShrinks(r.Keys, e, ns);
  }

  lemma ImplLeftShrinks(r: Registry, e: set<string>, i: set<string>, ns: string)
    requires ns in r && ns !in i
    ensures Remaining(r, e, i + {ns}) < Remaining(r, e, i)
  {
    RemainingShrinks(r.Keys, i, ns);
  }

  lemma LeftMonotone(r: Registry, a: PassState, b: PassState)
    requires a.extended <= b.extended && a.implemented <= b.implemented
    ensures Remaining(r, b.extended, b.implemented) <= Remaining(r, a.extended, a.implemented)
  {
    RemainingMonotone(r, a.extended, a.implemented, b.extended, b.implemented);
  }

  lemma Unknown(r: Registry, methods: map<string, set<string>>, ns: string)
    requires ns !in r
    ensures Registered(r, methods, ns)
  {
  }

  ghost predicate FirstRegistered(symbols: seq<Symbol>, methods: map<string, set<string>>, k: nat)
    requires k <= |symbols|
  {
    forall i | 0 <= i < k && symbols[i].ExtendBlock? && symbols[i].attaches ::
      symbols[i].typeName in methods && symbols[i].methods <= methods[symbols[i].typeName]
  }

  lemma FirstGrown(symbols: seq<Symbol>, m: map<string, set<string>>, n: map<string, set<string>>, k: nat)
    requires k <= |symbols| && FirstRegistered(symbols, m, k) && Grown(m, n)
    ensures FirstRegistered(symbols, n, k)
  {
  }

  lemma AllRegistered(r: Registry, methods: map<string, set<string>>, ns: string)
    requires ns in r && FirstRegistered(r[ns], methods, |r[ns]|)
    ensures Registered(r, methods, ns)
  {
  }

  lemma PairKeeps(r: Registry, s0: PassState, s1: PassState, s2: PassState, s3: PassState, ns: string)
    requires Good(r, s0) && s1 == s0.(stack := s0.stack + [ns])
    requires Kept(s1, s2, {ns}) && Kept(s2, s3, {}) && Good(r, s3)
    requires "" !in s3.extended && (ns != "" ==> ns in s3.implemented)
    ensures Good(r, s3.(stack := s0.stack)) && Kept(s0, s3.(stack := s0.stack), {})
  {
    KeptTrans(s1, s2, s3, {ns});
    assert s3.extended - s3.implemented <= s0.extended - s0.implemented;
  }

  lemma PushGood(r: Registry, s: PassState, stack: seq<string>)
    requires Good(r, s) && forall ns | ns in s.stack :: ns in stack
    ensures Good(r, s.(stack := stack))
  {
  }

  /** Between two requests, what is declared for extend is declared for impl. */
  lemma QuiescentIsPaired(r: Registry, s: PassState)
    requires Good(r, s) && s.stack == []
    ensures s.extended == s.implemented
  {
    assert forall ns | ns in s.extended && ns !in s.implemented :: ns in s.stack;
    assert s.extended <= s.implemented;
  }

  lemma UnstackGood(r: Registry, s: PassState)
    requires Good(r, s) && s.extended <= s.implemented
    ensures Good(r, s.(stack := []))
  {
  }

  /** The first type of the chain whose own table holds the method. */
  function Holder(methods: map<string, set<string>>, chain: seq<string>, name: string): Option<string> {
    if chain == [] then None
    else if chain[0] in methods && name in methods[chain[0]] then Some(chain[0])
    else Holder(methods, chain[1..], name)
  }

  predicate Has(methods: map<string, set<string>>, t: string, name: string) { t in methods && name in methods[t] }

  /** `found` is the nearest type of the chain, the type itself first, whose own table has
      the method: what a type defines hides what its parents define. */
  ghost predicate Nearest(methods: map<string, set<string>>, chain: seq<string>, name: string, found: Option<string>) {
    match found
    case None => forall i | 0 <= i < |chain| :: !Has(methods, chain[i], name)
    case Some(t) =>
      exists i :: 0 <= i < |chain| && chain[i] == t && Has(methods, t, name)
        && forall j | 0 <= j < i :: !Has(methods, chain[j], name)
  }

  lemma {:induction false} HolderIsNearest(methods: map<string, set<string>>, chain: seq<string>, name: string,
                                           found: Option<string>)
    ensures Nearest(methods, chain, name, found) <==> found == Holder(methods, chain, name)
    decreases |chain|
  {
    if chain != [] {
      HolderIsNearest(methods, chain[1..], name, found);
      if Has(methods, chain[0], name) {
        assert Nearest(methods, chain, name, Some(chain[0]));
      } else {
        NearestInRest(methods, chain, name, found);
      }
    }
  }

  lemma NoneIsNearest(methods: map<string, set<string>>, chain: seq<string>, name: string)
    ensures (forall i | 0 <= i < |chain| :: !Has(methods, chain[i], name)) <==> Holder(methods, chain, name).None?
  {
    HolderIsNearest(methods, chain, name, None);
  }

  lemma NearestInRest(methods: map<string, set<string>>, chain: seq<string>, name: string, found: Option<string>)
    requires chain != [] && !Has(methods, chain[0], name)
    ensures Nearest(methods, chain, name, found) <==> Nearest(methods, chain[1..], name, found)
  {
    if found.Some? && Nearest(methods, chain, name, found) {
      var i :| 0 <= i < |chain| && chain[i] == found.value && Has(methods, found.value, name)
        && forall j | 0 <= j < i :: !Has(methods, chain[j], name);
      assert chain[1..][i - 1] == found.value;
    }
    if found.Some? && Nearest(methods, chain[1..], name, found) {
      var i :| 0 <= i < |chain[1..]| && chain[1..][i] == found.value && Has(methods, found.value, name)
        && forall j | 0 <= j < i :: !Has(methods, chain[1..][j], name);
      assert chain[i + 1] == found.value;
      assert forall j | 1 <= j < i + 1 :: chain[j] == chain[1..][j - 1];
    }
    if found.None? { assert forall j | 1 <= j < |chain| :: chain[j] == chain[1..][j - 1]; }
  }

  /** Where a type and its parent both have the method, it is the type's. */
  lemma OverrideWins(methods: map<string, set<string>>, t: string, parents: seq<string>, name: string)
    requires Has(methods, t, name)
    ensures Nearest(methods, [t] + parents, name, Some(t))
    ensures forall p | p != Some(t) :: !Nearest(methods, [t] + parents, name, p)
  {
    var chain := [t] + parents;
    assert chain[0] == t;
    assert Nearest(methods, chain, name, Some(t));
    forall p | p != Some(t) ensures !Nearest(methods, chain, name, p) {
      HolderIsNearest(methods, chain, name, p);
      HolderIsNearest(methods, chain, name, Some(t));
    }
  }

  /** Once every module that mentions a type is declared, the type's table holds
      whatever those attach to it whose extend pass is not in flight. */
  lemma AttachedIsFound(r: Registry, s: PassState, typeName: string, name: string)
    requires Good(r, s) && Attached(r, typeName, name, s.running)
    requires forall ns | ns in Scan(r, typeName) && ns != "" :: ns in s.extended
    ensures typeName in s.methods && name in s.methods[typeName]
  {
    hide Once;
    var ns, b :| ns !in s.running && AttachedBy(r, ns, b, typeName, name);
    assert Mentions(b, typeName) && ns in Scan(r, typeName);
    assert Registered(r, s.methods, ns);
  }

  /** Asking again about a type declares nothing, unless a module without a name
      mentions it: such a module is passed over and asked for every time. */
  lemma AskedAgain(r: Registry, s: PassState, typeName: string)
    requires Good(r, s) && forall ns | ns in Scan(r, typeName) && ns != "" :: ns in s.extended
    ensures (exists ns :: ns in Scan(r, typeName) && ns !in s.extended) <==> "" in Scan(r, typeName)
  {
    if "" in Scan(r, typeName) { assert "" !in s.extended; }
  }

  /** Whatever a declared module attaches along the chain is found, once its pass is over. */
  lemma {:induction false} DeclaredIsHeld(r: Registry, s: PassState, chain: seq<string>, ns: string, b: Symbol, name: string)
    requires Good(r, s) && ns in s.extended && ns !in s.running
    requires b.ExtendBlock? && b.typeName in chain && AttachedBy(r, ns, b, b.typeName, name)
    ensures Holder(s.methods, chain, name).Some?
  {
    hide Once;
    assert Registered(r, s.methods, ns);
    if chain[0] != b.typeName { DeclaredIsHeld(r, s, chain[1..], ns, b, name); }
  }

  /** What a lookup along a chain finds: at least what the modules attach whose pass is
      over, at most what the declared ones attach. At rest the two are the same. */
  lemma HeldIff(r: Registry, s: PassState, chain: seq<string>, name: string)
    requires Good(r, s)
    ensures AttachedAlong(r, s.extended - s.running, chain, name) ==> Holder(s.methods, chain, name).Some?
    ensures Holder(s.methods, chain, name).Some? ==> AttachedAlong(r, s.extended, chain, name)
    ensures s.running == {} ==> (Holder(s.methods, chain, name).Some? <==> AttachedAlong(r, s.extended, chain, name))
  {
    hide Once, Sourced;
    if AttachedAlong(r, s.extended - s.running, chain, name) {
      var ns, b: Symbol :| ns in s.extended - s.running && b.ExtendBlock? && b.typeName in chain
        && AttachedBy(r, ns, b, b.typeName, name);
      DeclaredIsHeld(r, s, chain, ns, b, name);
    }
    if Holder(s.methods, chain, name).Some? { HeldIsAttached(r, s, chain, name); }
    assert s.running == {} ==> s.extended - s.running == s.extended;
  }

  lemma {:induction false} HeldIsAttached(r: Registry, s: PassState, chain: seq<string>, name: string)
    requires Sourced(r, s.extended, s.methods) && Holder(s.methods, chain, name).Some?
    ensures AttachedAlong(r, s.extended, chain, name)
  {
    if chain[0] in s.methods && name in s.methods[chain[0]] {
      var ns, b :| ns in s.extended && AttachedBy(r, ns, b, chain[0], name);
      assert b.typeName in chain;
    } else {
      HeldIsAttached(r, s, chain[1..], name);
      var ns, b: Symbol :| ns in s.extended && b.ExtendBlock? && b.typeName in chain[1..]
        && AttachedBy(r, ns, b, b.typeName, name);
      assert b.typeName in chain;
    }
  }

  /** Asking for a method of C that the module `lib` attaches to its parent P: `lib` is
      not imported and does not mention C, so lookup declares nothing and misses it. */
  lemma ParentIsMissed()
    ensures var r: Registry := map["lib" := [ExtendBlock("P", {"f"}, true, [])]];
      var s := PassState({"main"}, {"main"}, map[], [], {}, [(ExtendPass, "main"), (ImplPass, "main")]);
      && Good(r, s) && Attached(r, "P", "f", {})
      && Scan(r, "C") <= s.extended && Holder(s.methods, ["C", "P"], "f").None?
  {
    var r: Registry := map["lib" := [ExtendBlock("P", {"f"}, true, [])]];
    var b := ExtendBlock("P", {"f"}, true, []);
    assert r["lib"][0] == b;
    assert AttachedBy(r, "lib", b, "P", "f");
    assert ["C", "P"][1..] == ["P"] && ["P"][1..] == [];
  }

  // ---------------------------------------------------------------- the pass manager

  class AttachmentTable {
    const modules: Registry
    const order: seq<string>              // allModules()
    var declaredExtend: set<string>
    var declaredImpl: set<string>
    var methods: map<string, set<string>> // structMethods_
    var index: map<string, seq<string>>
    var indexBuilt: bool
    var ready: bool                       // crossFileSymbolsReady_
    ghost var stack: seq<string>
    ghost var running: set<string>
    ghost var log: seq<(Pass, string)>

    ghost function S(): PassState reads this {
      PassState(declaredExtend, declaredImpl, methods, stack, running, log)
    }

    ghost predicate IndexOk() reads this {
      && (forall ns :: ns in order <==> ns in modules)
      && (indexBuilt ==> forall t, ns :: ns in Lookup(index, t) <==> ns in Scan(modules, t))
    }

    ghost predicate Valid() reads this { IndexOk() && Good(modules, S()) }

    ghost function Left(): nat reads this { Remaining(modules, declaredExtend, declaredImpl) }

    constructor (modules: Registry, order: seq<string>)
      requires forall ns :: ns in order <==> ns in modules
      ensures Valid() && this.modules == modules && !ready && S() == PassState({}, {}, map[], [], {}, [])
    {
      this.modules, this.order := modules, order;
      declaredExtend, declaredImpl, methods, index, indexBuilt, ready := {}, {}, map[], map[], false, false;
      stack, running, log := [], {}, [];
    }

    /** Built on first use; it then answers what scanning every module would. */
    method BuildIndex()
      requires IndexOk()
      modifies `index, `indexBuilt
      ensures IndexOk() && indexBuilt
    {
      hide AddSymbol, Lookup, Mentions;
      if indexBuilt { return; }
      index := map[];
      EmptyIndex(modules);
      for i := 0 to |order|
        modifies `index
        invariant Indexed(modules, index, order[..i], "", 0)
      {
        var ns := order[i];
        assert ns in order;
        Restart(modules, index, order[..i], ns);
        for k := 0 to |modules[ns]|
          modifies `index
          invariant Indexed(modules, index, order[..i], ns, k)
        {
          IndexStep(modules, index, order[..i], ns, k);
          index := AddSymbol(index, modules[ns][k], ns);
        }
        IndexNext(modules, index, order[..i], ns, "");
        assert order[..i + 1] == order[..i] + [ns];
      }
      assert order[..|order|] == order;
      indexBuilt := true;
      WholeIndex(modules, index, order);
    }

    method DeclareExtendMethodsForNamespace(ns: string)
      requires Valid() && (ns != "" ==> ns in stack)
      modifies this
      ensures Valid() && ready == old(ready) && Kept(old(S()), S(), {ns}) && (ns != "" ==> ns in declaredExtend)
      decreases Left(), 2
    {
      hide Good, Once, Registered, Scan, Lookup, Remaining;
      if ns == "" { return; }
      // Insert first: the pass may ask for the same namespace again.
      if ns in declaredExtend { return; }
      BeginExtendGood(modules, S(), ns);
      ghost var before := S();
      declaredExtend := declaredExtend + {ns};
      running := running + {ns};
      log := log + [(ExtendPass, ns)];
      assert S() == BeginExtend(before, ns);
      if ns in modules {
        LeftShrinks(modules, before.extended, declaredImpl, ns);
        RunExtendPass(ns);
      } else {
        Unknown(modules, methods, ns);
        KeptSame(S());
      }
      EndExtendGood(modules, before, S(), ns);
      running := running - {ns};
    }

    method DeclareImplMethodsForNamespace(ns: string)
      requires Valid() && (ns != "" ==> ns in declaredExtend)
      modifies this
      ensures Valid() && ready == old(ready) && Kept(old(S()), S(), {}) && (ns != "" ==> ns in declaredImpl)
      decreases Left(), 2
    {
      hide Good, Once, Registered, Scan, Lookup, Remaining;
      if ns == "" { return; }
      if ns in declaredImpl { return; }
      BeginImplGood(modules, S(), ns);
      ghost var before := S();
      declaredImpl := declaredImpl + {ns};
      log := log + [(ImplPass, ns)];
      ghost var begun := S();
      assert begun == BeginImpl(before, ns);
      if ns in modules {
        ImplLeftShrinks(modules, declaredExtend, before.implemented, ns);
        RunImplPass(ns);
        KeptTrans(before, begun, S(), {});
      }
    }

    /** Every extend block of the module, with the loads each one causes. */
    method RunExtendPass(ns: string)
      requires Valid() && ns in modules && ns in declaredExtend
      modifies this
      ensures Valid() && ready == old(ready) && Kept(old(S()), S(), {}) && Registered(modules, methods, ns)
      decreases Left(), 6
    {
      hide Good, Once, Scan, Lookup, Remaining, Grown;
      var symbols := modules[ns];
      KeptSame(S());
      for i := 0 to |symbols|
        invariant Valid() && ready == old(ready) && Kept(old(S()), S(), {})
        invariant FirstRegistered(symbols, methods, i)
      {
        LeftMonotone(modules, old(S()), S());
        if symbols[i].ExtendBlock? {
          ghost var s0 := S();
          MakeLoads(symbols[i].loads);
          ghost var s1 := S();
          KeptTrans(old(S()), s0, s1, {});
          FirstGrown(symbols, s0.methods, s1.methods, i);
          if symbols[i].attaches {
            var t := symbols[i].typeName;
            AddMethodsGood(modules, S(), ns, symbols[i]);
            methods := methods[t := (if t in methods then methods[t] else {}) + symbols[i].methods];
            assert S() == AddMethods(s1, t, symbols[i].methods);
            KeptTrans(old(S()), s1, S(), {});
            FirstGrown(symbols, s1.methods, methods, i);
          }
        }
        assert FirstRegistered(symbols, methods, i + 1);
      }
      AllRegistered(modules, methods, ns);
    }

    method RunImplPass(ns: string)
      requires Valid() && ns in modules
      modifies this
      ensures Valid() && ready == old(ready) && Kept(old(S()), S(), {})
      decreases Left(), 6
    {
      hide Good, Once, Scan, Lookup, Remaining, Grown;
      var symbols := modules[ns];
      KeptSame(S());
      for i := 0 to |symbols|
        invariant Valid() && ready == old(ready) && Kept(old(S()), S(), {})
      {
        LeftMonotone(modules, old(S()), S());
        if symbols[i].ImplBlock? && symbols[i].wellFormed {
          ghost var s0 := S();
          MakeLoads(symbols[i].loads);
          KeptTrans(old(S()), s0, S(), {});
        }
      }
    }

    /** Some of the loads happen, depending on what was loaded before. */
    method MakeLoads(loads: seq<Load>)
      requires Valid()
      modifies this
      ensures Valid() && ready == old(ready) && Kept(old(S()), S(), {})
      decreases Left(), 5
    {
      hide Good, Once, Scan, Lookup, Remaining, Grown;
      KeptSame(S());
      for i := 0 to |loads|
        invariant Valid() && ready == old(ready) && Kept(old(S()), S(), {})
      {
        LeftMonotone(modules, old(S()), S());
        ghost var s0 := S();
        KeptSame(s0);
        if * {
          match loads[i]
          case Template(t) => var _ := DeclareAttachmentsForType(t);
          case FromModule(ns) => if ready && ns != "" { DeclareNamespace(ns); }
        }
        KeptTrans(old(S()), s0, S(), {});
      }
    }

    /** The two passes of one namespace. */
    method DeclareNamespace(ns: string)
      requires Valid()
      modifies this
      ensures Valid() && ready == old(ready) && Kept(old(S()), S(), {})
      ensures ns != "" ==> ns in declaredExtend && ns in declaredImpl
      decreases Left(), 3
    {
      hide Once, Scan, Lookup, Remaining, Registered;
      ghost var s0 := S();
      stack := stack + [ns];
      PushGood(modules, s0, stack);
      ghost var s1 := S();
      assert s1 == s0.(stack := stack);
      DeclareExtendMethodsForNamespace(ns);
      ghost var s2 := S();
      LeftMonotone(modules, s1, s2);
      DeclareImplMethodsForNamespace(ns);
      ghost var s3 := S();
      stack := stack[..|stack| - 1];
      assert stack == s0.stack;
      PairKeeps(modules, s0, s1, s2, s3, ns);
      assert S() == s3.(stack := s0.stack);
    }

    method DeclareAttachmentsForType(typeName: string) returns (declared: bool)
      requires Valid()
      modifies this
      ensures Valid() && ready == old(ready) && Kept(old(S()), S(), {})
      ensures !declared ==> S() == old(S())
      ensures ready && typeName != "" ==> forall ns | ns in Scan(modules, typeName) && ns != "" :: ns in declaredExtend
      ensures declared <==>
        (ready && typeName != "" && exists ns :: ns in Scan(modules, typeName) && ns !in old(declaredExtend))
      decreases Left(), 4
    {
      hide Once, Registered, Scan, Lookup, Remaining, Grown;
      KeptSame(S());
      if !ready || typeName == "" { return false; }
      BuildIndex();
      declared := false;
      var found := Lookup(index, typeName);
      for i := 0 to |found|
        invariant Valid() && ready == old(ready) && Kept(old(S()), S(), {})
        invariant forall ns | ns in found[..i] :: ns == "" || ns in declaredExtend
        invariant declared ==> exists ns :: ns in found && ns !in old(declaredExtend)
        invariant !declared ==> S() == old(S()) && forall ns | ns in found[..i] :: ns in declaredExtend
      {
        var ns := found[i];
        LeftMonotone(modules, old(S()), S());
        if ns in declaredExtend || ns in declaredImpl { continue; }
        ghost var s0 := S();
        DeclareNamespace(ns);
        KeptTrans(old(S()), s0, S(), {});
        assert ns !in old(declaredExtend);
        declared := true;
      }
      assert found[..|found|] == found;
      assert forall ns :: ns in found <==> ns in Scan(modules, typeName);
    }

    /** The explicit passes over the current module and the imported ones; only
        after them may a load ask for more. */
    method RegisterAttachments(current: string, imports: seq<string>)
      requires Valid() && !ready && stack == [] && running == {}
      modifies this
      ensures Valid() && ready && stack == [] && running == {}
      ensures forall ns | ns in [current] + imports && ns != "" :: ns in declaredExtend && ns in declaredImpl
    {
      hide Once, Registered, Scan, Lookup, Remaining, Grown;
      var all := [current] + imports;
      QuiescentIsPaired(modules, S());
      ghost var s0 := S();
      PushGood(modules, s0, all);
      stack := all;
      assert S() == s0.(stack := all);
      for i := 0 to |all|
        invariant Valid() && !ready && stack == all && running == {}
        invariant declaredExtend - declaredImpl <= set ns | ns in all
        invariant forall ns | ns in all[..i] && ns != "" :: ns in declaredExtend
      {
        DeclareExtendMethodsForNamespace(all[i]);
      }
      for i := 0 to |all|
        invariant Valid() && !ready && stack == all && running == {}
        invariant declaredExtend - declaredImpl <= set ns | ns in all
        invariant forall ns | ns in all && ns != "" :: ns in declaredExtend
        invariant forall ns | ns in all[..i] && ns != "" :: ns in declaredImpl
      {
        assert all[i] in all;
        DeclareImplMethodsForNamespace(all[i]);
      }
      ghost var s1 := S();
      assert forall ns | ns in all && ns != "" :: ns in declaredImpl;
      UnstackGood(modules, s1);
      stack, ready := [], true;
      assert S() == s1.(stack := []);
    }

    method Search(chain: seq<string>, name: string) returns (found: Option<string>)
      ensures found == Holder(methods, chain, name) && Nearest(methods, chain, name, found)
    {
      HolderIsNearest(methods, chain, name, Holder(methods, chain, name));
      for i := 0 to |chain|
        invariant Holder(methods, chain, name) == Holder(methods, chain[i..], name)
      {
        if chain[i] in methods && name in methods[chain[i]] { return Some(chain[i]); }
      }
      return None;
    }

    /** Looks the method up along a type and its parents; on a miss, declares what
        any module attaches to the type itself, and looks again. */
    method FindMethodEntryInChain(chain: seq<string>, name: string) returns (found: Option<string>)
      requires Valid()
      modifies this
      ensures Valid() && ready == old(ready) && Kept(old(S()), S(), {})
      ensures found == if Holder(old(methods), chain, name).Some? then Holder(old(methods), chain, name)
                       else Holder(methods, chain, name)
      // The nearest type of the chain that has it, in the tables as they were, or, where
      // none had it, as they are now.
      ensures (exists i :: 0 <= i < |chain| && Has(old(methods), chain[i], name)) ==>
        Nearest(old(methods), chain, name, found)
      ensures (forall i | 0 <= i < |chain| :: !Has(old(methods), chain[i], name)) ==>
        Nearest(methods, chain, name, found)
      // What some module attaches to the type itself is found, imported or not, unless
      // the only such modules are those whose extend pass is making the call.
      ensures ready && chain != [] && chain[0] != "" && Attached(modules, chain[0], name, running) ==> found.Some?
      // Exactly what declared modules attach along the chain is found; one whose extend
      // pass is making the call may have attached it or not.
      ensures AttachedAlong(modules, declaredExtend - running, chain, name) ==> found.Some?
      ensures found.Some? ==> AttachedAlong(modules, declaredExtend, chain, name)
      ensures running == {} ==> (found.Some? <==> AttachedAlong(modules, declaredExtend, chain, name))
      // Where all modules that mention the type are declared, nothing else happens.
      ensures chain != [] && Scan(modules, chain[0]) <= old(declaredExtend) ==>
        found == Holder(old(methods), chain, name) && S() == old(S())
    {
      hide Once, Registered, Scan, Lookup, Remaining, Grown, Attached, Nearest;
      KeptSame(S());
      NoneIsNearest(methods, chain, name);
      found := Search(chain, name);
      if found.Some? || chain == [] {
        HeldIff(modules, S(), chain, name);
        return;
      }
      var again := DeclareAttachmentsForType(chain[0]);
      if again { found := Search(chain, name); }
      if ready && chain[0] != "" && Attached(modules, chain[0], name, running) {
        AttachedIsFound(modules, S(), chain[0], name);
      }
      HeldIff(modules, S(), chain, name);
    }
  }
}
