/** The arguments of a test attribute (src/attributes/TestAttribute.cpp). */
module TestSpec {
  import opened Wrappers

  // ---------------------------------------------------------------- string literals

  /** What an escape stands for; an unknown one stays as it is. */
  function Decode(e: char): string {
    if e == 'n' then "\n" else if e == 'r' then "\r" else if e == 't' then "\t" else if e == '0' then "\0"
    else if e == '\\' || e == '"' || e == '\'' then [e]
    else ['\\', e]
  }

  /** From `raw` on, up to the closing quote. A backslash at the very end is kept. */
  function Unescape(raw: string): string
    decreases |raw|
  {
    if raw == [] || raw[0] == '"' then []
    else if raw[0] == '\\' && |raw| > 1 then Decode(raw[1]) + Unescape(raw[2..])
    else [raw[0]] + Unescape(raw[1..])
  }

  function Unquoted(raw: string): string {
    if |raw| >= 2 && raw[0] == 'c' && raw[1] == '"' then Unescape(raw[2..])
    else if raw != [] && raw[0] == '"' then Unescape(raw[1..])
    else raw
  }

  method UnquoteStringLiteral(raw: string) returns (out: string)
    ensures out == Unquoted(raw)
  {
    hide Decode, Unescape;
    var i := 0;
    if |raw| >= 2 && raw[0] == 'c' && raw[1] == '"' { i := 2; }
    else if raw != [] && raw[0] == '"' { i := 1; }
    else { return raw; }
    out := [];
    ghost var from := i;
    while i < |raw|
      invariant 0 <= i <= |raw| && out + Unescape(raw[i..]) == Unescape(raw[from..])
    {
      var c := raw[i];
      UnescapeAt(raw, i);
      if c == '"' { return; }
      if c == '\\' && i + 1 < |raw| {
        out := out + Decode(raw[i + 1]);
        i := i + 2;
      } else {
        out := out + [c];
        i := i + 1;
      }
    }
    assert raw[i..] == [];
    UnescapeEnd();
  }

  lemma UnescapeAt(raw: string, i: nat)
    requires i < |raw|
    ensures Unescape(raw[i..]) ==
      if raw[i] == '"' then []
      else if raw[i] == '\\' && i + 1 < |raw| then Decode(raw[i + 1]) + Unescape(raw[i + 2..])
      else [raw[i]] + Unescape(raw[i + 1..])
  {
    hide Decode;
    assert raw[i..][0] == raw[i] && raw[i..][1..] == raw[i + 1..];
    if i + 1 < |raw| { assert raw[i..][1] == raw[i + 1] && raw[i..][2..] == raw[i + 2..]; }
  }

  lemma UnescapeEnd()
    ensures Unescape([]) == []
  {
  }

  /** A way to write a character between quotes. */
  function EscapeChar(c: char): string {
    if c == '\n' then "\\n" else if c == '\r' then "\\r" else if c == '\t' then "\\t" else if c == '\0' then "\\0"
    else if c == '\\' || c == '"' then ['\\', c]
    else [c]
  }

  function Escape(s: string): string { if s == [] then [] else EscapeChar(s[0]) + Escape(s[1..]) }

  lemma UnescapePlain(c: char, tail: string)
    requires c != '"' && c != '\\'
    ensures Unescape([c] + tail) == [c] + Unescape(tail)
  {
    hide Decode;
    assert ([c] + tail)[1..] == tail;
  }

  lemma UnescapeEscape(e: char, tail: string)
    ensures Unescape(['\\', e] + tail) == Decode(e) + Unescape(tail)
  {
    hide Decode;
    assert (['\\', e] + tail)[2..] == tail;
  }

  lemma EscapeForms(c: char)
    ensures if |EscapeChar(c)| == 1 then EscapeChar(c) == [c] && c != '"' && c != '\\'
            else |EscapeChar(c)| == 2 && EscapeChar(c)[0] == '\\' && Decode(EscapeChar(c)[1]) == [c]
  {
  }

  lemma {:induction false} EscapeBack(s: string)
    ensures Unescape(Escape(s) + ['"']) == s
  {
    hide EscapeChar, Decode;
    if s == [] {
      assert Escape(s) + ['"'] == ['"'];
    } else {
      EscapeBack(s[1..]);
      var e := EscapeChar(s[0]);
      var tail := Escape(s[1..]) + ['"'];
      EscapeForms(s[0]);
      assert Escape(s) + ['"'] == e + tail;
      if |e| == 1 {
        UnescapePlain(s[0], tail);
      } else {
        UnescapeEscape(e[1], tail);
        assert e == ['\\', e[1]];
      }
    }
  }

  /** Any text can be written as a literal of either form, and is read back. */
  lemma QuoteBack(s: string)
    ensures Unquoted(['"'] + Escape(s) + ['"']) == s && Unquoted(['c', '"'] + Escape(s) + ['"']) == s
  {
    hide Unescape, Escape;
    EscapeBack(s);
    var q := Escape(s) + ['"'];
    var plain, c := ['"'] + Escape(s) + ['"'], ['c', '"'] + Escape(s) + ['"'];
    assert plain == ['"'] + q && plain[1..] == q && plain[0] == '"';
    assert c == ['c', '"'] + q && c[2..] == q && c[0] == 'c' && c[1] == '"';
  }

  // ---------------------------------------------------------------- arguments

  /** `number` is what readIntValue makes of the argument. */
  datatype Arg =
    | Literal(text: string, isC: bool)
    | KeyValue(key: string, value: Arg)
    | Call(key: string, inner: seq<Arg>)
    | Flag(key: string)
    | Other(number: Option<int>)

  predicate IsSkip(key: string) { key == "skip" }

  predicate IsTimeout(key: string) { key == "timeout" }

  predicate IsExpectedFail(key: string) { key == "expected_fail" }

  datatype Spec = Spec(displayName: string, skip: bool, skipReason: string, expectedFail: bool, timeout: int)

  datatype Option4 = Name | Skip | ExpectedFail | Timeout

  const BLANK := Spec("", false, "", false, 0)

  function Number(a: Arg): int { if a.Other? && a.number.Some? then a.number.value else 0 }

  /** The option an argument sets, if it is well formed on its own. */
  function OptionOf(a: Arg): Option<Option4> {
    match a
    case Literal(_, _) => Some(Name)
    case KeyValue(key, value) => if IsTimeout(key) && Number(value) > 0 then Some(Timeout) else None
    case Call(key, inner) =>
      if IsSkip(key) then
        if inner == [] || (|inner| == 1 && inner[0].Literal? && !inner[0].isC) then Some(Skip) else None
      else if IsTimeout(key) && |inner| == 1 && Number(inner[0]) > 0 then Some(Timeout)
      else None
    case Flag(key) => if IsSkip(key) then Some(Skip) else if IsExpectedFail(key) then Some(ExpectedFail) else None
    case Other(_) => None
  }

  /** What setting the option leaves in the spec. */
  function Set(s: Spec, a: Arg): Spec {
    match a
    case Literal(text, _) => s.(displayName := Unquoted(text))
    case KeyValue(_, value) => s.(timeout := Number(value))
    case Call(key, inner) =>
      if IsSkip(key) then
        s.(skip := true, skipReason := if inner != [] && inner[0].Literal? then Unquoted(inner[0].text) else s.skipReason)
      else s.(timeout := if inner != [] then Number(inner[0]) else 0)
    case Flag(key) => if IsSkip(key) then s.(skip := true) else s.(expectedFail := true)
    case Other(_) => s
  }

  function Parsed(args: seq<Arg>, s: Spec, seen: set<Option4>): Option<Spec>
    decreases |args|
  {
    if args == [] then Some(s)
    else
      var o := OptionOf(args[0]);
      if o.None? || o.value in seen then None
      else Parsed(args[1..], Set(s, args[0]), seen + {o.value})
  }

  datatype Taken = Taken(spec: Spec, option: Option4)

  /** One argument, given the options set before it. */
  function Take(s: Spec, a: Arg, seen: set<Option4>): Option<Taken> {
    var o := OptionOf(a);
    if o.None? || o.value in seen then None else Some(Taken(Set(s, a), o.value))
  }

  method ParseTestSpec(args: seq<Arg>) returns (r: Option<Spec>)
    ensures r == Parsed(args, BLANK, {})
  {
    hide OptionOf, Set;
    var out, seen := BLANK, {};
    for i := 0 to |args|
      invariant Parsed(args, BLANK, {}) == Parsed(args[i..], out, seen)
    {
      assert args[i..][0] == args[i] && args[i..][1..] == args[i + 1..];
      var t := TakeArg(args[i], out, seen);
      if t.None? { return None; }
      out, seen := t.value.spec, seen + {t.value.option};
    }
    return Some(out);
  }

  method TakeArg(arg: Arg, out: Spec, seen: set<Option4>) returns (r: Option<Taken>)
    ensures r == Take(out, arg, seen)
  {
    hide IsSkip, IsTimeout, IsExpectedFail, Unquoted, Number;
    match arg
    case Literal(text, _) =>
      if Name in seen { return None; }
      var name := UnquoteStringLiteral(text);
      return Some(Taken(out.(displayName := name), Name));
    case Other(_) => return None;
    case KeyValue(key, value) =>
      if !IsTimeout(key) || Timeout in seen || Number(value) <= 0 { return None; }
      return Some(Taken(out.(timeout := Number(value)), Timeout));
    case Call(key, inner) => r := TakeCall(key, inner, out, seen);
    case Flag(key) =>
      if IsSkip(key) {
        if Skip in seen { return None; }
        return Some(Taken(out.(skip := true), Skip));
      } else if IsExpectedFail(key) {
        if ExpectedFail in seen { return None; }
        return Some(Taken(out.(expectedFail := true), ExpectedFail));
      }
      return None;
  }

  method TakeCall(key: string, inner: seq<Arg>, out: Spec, seen: set<Option4>) returns (r: Option<Taken>)
    ensures r == Take(out, Call(key, inner), seen)
  {
    hide IsSkip, IsTimeout, IsExpectedFail, Unquoted, Number;
    if IsSkip(key) {
      if Skip in seen { return None; }
      var spec := out;
      if inner != [] {
        if |inner| != 1 || !inner[0].Literal? || inner[0].isC { return None; }
        var reason := UnquoteStringLiteral(inner[0].text);
        spec := spec.(skipReason := reason);
      }
      return Some(Taken(spec.(skip := true), Skip));
    } else if IsTimeout(key) {
      if Timeout in seen || |inner| != 1 || Number(inner[0]) <= 0 { return None; }
      return Some(Taken(out.(timeout := Number(inner[0])), Timeout));
    }
    return None;
  }

  // ---------------------------------------------------------------- what the options are

  function Quoted(s: string): Arg { Literal(['"'] + Escape(s) + ['"'], false) }

  /** `timeout = n` and `timeout(n)`, for positive n only. */
  lemma TimeoutIs(n: int)
    ensures var r := if n > 0 then Some(Spec("", false, "", false, n)) else None;
      && Parsed([KeyValue("timeout", Other(Some(n)))], BLANK, {}) == r
      && Parsed([Call("timeout", [Other(Some(n))])], BLANK, {}) == r
  {
    assert "timeout"[0] != "skip"[0];
    OneArgument(KeyValue("timeout", Other(Some(n))));
    OneArgument(Call("timeout", [Other(Some(n))]));
  }

  /** `skip`, `skip("r")` and `expected_fail`; no other word is an option. */
  lemma FlagsAre(r: string, word: string)
    requires word != "skip" && word != "expected_fail"
    ensures Parsed([Flag("skip")], BLANK, {}) == Some(Spec("", true, "", false, 0))
    ensures Parsed([Call("skip", [Quoted(r)])], BLANK, {}) == Some(Spec("", true, r, false, 0))
    ensures Parsed([Flag("expected_fail")], BLANK, {}) == Some(Spec("", false, "", true, 0))
    ensures Parsed([Flag(word)], BLANK, {}) == None
    ensures Parsed([Call("skip", [Literal(r, true)])], BLANK, {}) == None   // a C string
    ensures Parsed([Call("skip", [Quoted(r), Quoted(r)])], BLANK, {}) == None
    ensures Parsed([Call("skip", [])], BLANK, {}) == Some(Spec("", true, "", false, 0))
  {
    hide Escape, Unquoted;
    assert "expected_fail"[0] != "skip"[0];
    QuoteBack(r);
    OneArgument(Flag("skip"));
    OneArgument(Call("skip", [Quoted(r)]));
    OneArgument(Flag("expected_fail"));
    OneArgument(Flag(word));
    OneArgument(Call("skip", [Literal(r, true)]));
    OneArgument(Call("skip", [Quoted(r), Quoted(r)]));
    OneArgument(Call("skip", []));
  }

  /** A string is the test's name. */
  lemma NameIs(x: string)
    ensures Parsed([Quoted(x)], BLANK, {}) == Some(Spec(x, false, "", false, 0))
  {
    hide Escape, Unquoted;
    QuoteBack(x);
    OneArgument(Quoted(x));
  }

  lemma OneArgument(a: Arg)
    ensures Parsed([a], BLANK, {}) == if OptionOf(a).Some? then Some(Set(BLANK, a)) else None
  {
    hide OptionOf, Set;
    assert [a][1..] == [];
  }

  /** What a backslash does to the character after it; before any other it stays. */
  lemma EscapesAre(tail: string, e: char)
    requires e !in ['n', 'r', 't', '0', '\\', '"', '\'']
    ensures Unescape("\\n" + tail) == "\n" + Unescape(tail) && Unescape("\\r" + tail) == "\r" + Unescape(tail)
    ensures Unescape("\\t" + tail) == "\t" + Unescape(tail) && Unescape("\\0" + tail) == "\0" + Unescape(tail)
    ensures Unescape("\\\\" + tail) == "\\" + Unescape(tail) && Unescape("\\\"" + tail) == "\"" + Unescape(tail)
    ensures Unescape("\\'" + tail) == "'" + Unescape(tail)
    ensures Unescape(['\\', e] + tail) == ['\\', e] + Unescape(tail)
  {
    hide Unescape;
    UnescapeEscape('n', tail);
    UnescapeEscape('r', tail);
    UnescapeEscape('t', tail);
    UnescapeEscape('0', tail);
    UnescapeEscape('\\', tail);
    UnescapeEscape('"', tail);
    UnescapeEscape('\'', tail);
    UnescapeEscape(e, tail);
  }

  // ---------------------------------------------------------------- order does not matter

  /** The argument that sets an option. */
  function Setter(args: seq<Arg>, o: Option4): Option<Arg> {
    if args == [] then None else if OptionOf(args[0]) == Some(o) then Some(args[0]) else Setter(args[1..], o)
  }

  function SetBy(s: Spec, a: Option<Arg>): Spec { if a.Some? then Set(s, a.value) else s }

  /** The spec, option by option. */
  function Collected(s: Spec, args: seq<Arg>): Spec {
    SetBy(SetBy(SetBy(SetBy(s, Setter(args, Name)), Setter(args, Skip)), Setter(args, ExpectedFail)),
          Setter(args, Timeout))
  }

  function Count(args: seq<Arg>, o: Option4): nat {
    if args == [] then 0 else (if OptionOf(args[0]) == Some(o) then 1 else 0) + Count(args[1..], o)
  }

  /** Every argument is well formed on its own, and no option is set twice. */
  ghost predicate Acceptable(args: seq<Arg>) {
    (forall a | a in args :: OptionOf(a).Some?) && forall o :: Count(args, o) <= 1
  }

  lemma {:induction false} SetterIsIn(args: seq<Arg>, o: Option4)
    ensures match Setter(args, o)
      case Some(a) => a in args && OptionOf(a) == Some(o) && Count(args, o) >= 1
      case None => Count(args, o) == 0
  {
    if args != [] { SetterIsIn(args[1..], o); }
  }

  lemma {:induction false} OnlySetter(args: seq<Arg>, o: Option4, a: Arg)
    requires a in args && OptionOf(a) == Some(o) && Count(args, o) <= 1
    ensures Setter(args, o) == Some(a)
  {
    if OptionOf(args[0]) == Some(o) {
      SetterIsIn(args[1..], o);
      if a != args[0] {
        assert a in args[1..];
        CountIn(args[1..], o, a);
      }
    } else {
      OnlySetter(args[1..], o, a);
    }
  }

  lemma {:induction false} CountIn(args: seq<Arg>, o: Option4, a: Arg)
    requires a in args && OptionOf(a) == Some(o)
    ensures Count(args, o) >= 1
  {
    if a != args[0] { CountIn(args[1..], o, a); }
  }

  /** An option is set in fields of its own. */
  lemma SetIs(s: Spec, t: Spec, a: Arg)
    requires OptionOf(a).Some? && t.skipReason == s.skipReason
    ensures Set(s, a) ==
      match OptionOf(a).value
      case Name => s.(displayName := Set(t, a).displayName)
      case Skip => s.(skip := true, skipReason := Set(t, a).skipReason)
      case ExpectedFail => s.(expectedFail := true)
      case Timeout => s.(timeout := Set(t, a).timeout)
  {
    hide IsSkip, IsTimeout, IsExpectedFail, Unquoted, Number;
  }

  lemma SetCommutes(s: Spec, a: Arg, b: Option<Arg>)
    requires OptionOf(a).Some? && (b.Some? ==> OptionOf(b.value).Some? && OptionOf(b.value) != OptionOf(a))
    ensures SetBy(Set(s, a), b) == Set(SetBy(s, b), a)
  {
    hide Set, OptionOf;
    if b.Some? {
      var x, y := a, b.value;
      if OptionOf(a).value == Skip {
        SetKeepsReason(s, y);
        SetIs(Set(s, y), s, x); SetIs(s, s, x);
        SetValue(Set(s, x), s, y); SetValue(s, s, y);
      } else {
        SetKeepsReason(s, x);
        SetIs(Set(s, x), s, y); SetIs(s, s, y);
        SetValue(Set(s, y), s, x); SetValue(s, s, x);
      }
    }
  }

  lemma SetKeepsReason(s: Spec, a: Arg)
    requires OptionOf(a).Some? && OptionOf(a).value != Skip
    ensures Set(s, a).skipReason == s.skipReason
  {
    hide IsSkip, IsTimeout, IsExpectedFail, Unquoted, Number;
  }

  /** Options other than skip do not depend on what was set before. */
  lemma SetValue(s: Spec, t: Spec, a: Arg)
    requires OptionOf(a).Some? && OptionOf(a).value != Skip
    ensures Set(s, a) ==
      match OptionOf(a).value
      case Name => s.(displayName := Set(t, a).displayName)
      case ExpectedFail => s.(expectedFail := true)
      case _ => s.(timeout := Set(t, a).timeout)
  {
    hide IsSkip, IsTimeout, IsExpectedFail, Unquoted, Number;
  }

  lemma CollectStep(s: Spec, args: seq<Arg>, o: Option4)
    requires args != [] && OptionOf(args[0]) == Some(o) && Count(args[1..], o) == 0
    ensures Collected(Set(s, args[0]), args[1..]) == Collected(s, args)
  {
    hide Set, OptionOf;
    var a, rest := args[0], args[1..];
    forall p: Option4 ensures Setter(rest, p).Some? ==> OptionOf(Setter(rest, p).value) == Some(p) {
      SetterIsIn(rest, p);
    }
    SetterIsIn(rest, o);
    assert forall p: Option4 | p != o :: Setter(args, p) == Setter(rest, p);
    assert Setter(args, o) == Some(a);
    var s1 := SetBy(s, Setter(rest, Name));
    var s2 := SetBy(s1, Setter(rest, Skip));
    var s3 := SetBy(s2, Setter(rest, ExpectedFail));
    if o != Name {
      SetCommutes(s, a, Setter(rest, Name));
      if o != Skip {
        SetCommutes(s1, a, Setter(rest, Skip));
        if o != ExpectedFail { SetCommutes(s2, a, Setter(rest, ExpectedFail)); }
      }
    }
  }

  lemma {:induction false} ParsedIs(args: seq<Arg>, s: Spec, seen: set<Option4>)
    ensures Parsed(args, s, seen) ==
      if Acceptable(args) && forall o | o in seen :: Count(args, o) == 0 then Some(Collected(s, args)) else None
    decreases |args|
  {
    if args != [] {
      var o := OptionOf(args[0]);
      if o.Some? && o.value !in seen {
        ParsedIs(args[1..], Set(s, args[0]), seen + {o.value});
        if Count(args[1..], o.value) == 0 { CollectStep(s, args, o.value); }
        assert forall a :: a in args <==> a == args[0] || a in args[1..];
        assert Acceptable(args) <==> Acceptable(args[1..]) && Count(args[1..], o.value) == 0 by {
          assert forall p: Option4 | p != o.value :: Count(args, p) == Count(args[1..], p);
          assert Count(args, o.value) == 1 + Count(args[1..], o.value);
        }
      } else {
        assert args[0] in args;
        if o.Some? { assert Count(args, o.value) > 0; }
      }
    }
  }

  /** Parsing succeeds exactly when every argument is well formed on its own and no
      option is set twice; the spec then has each option as its argument sets it. */
  lemma SucceedsIff(args: seq<Arg>)
    ensures Parsed(args, BLANK, {}) == if Acceptable(args) then Some(Collected(BLANK, args)) else None
  {
    ParsedIs(args, BLANK, {});
  }

  lemma {:induction false} CountJoin(xs: seq<Arg>, ys: seq<Arg>, o: Option4)
    ensures Count(xs + ys, o) == Count(xs, o) + Count(ys, o)
  {
    if xs == [] {
      assert xs + ys == ys;
    } else {
      assert (xs + ys)[1..] == xs[1..] + ys;
      CountJoin(xs[1..], ys, o);
    }
  }

  lemma WithoutOne(xs: seq<Arg>, ys: seq<Arg>, j: nat)
    requires multiset(xs) == multiset(ys) && xs != [] && j < |ys| && ys[j] == xs[0]
    ensures multiset(xs[1..]) == multiset(ys[..j] + ys[j + 1..])
  {
    assert xs == [xs[0]] + xs[1..];
    assert ys == ys[..j] + ([ys[j]] + ys[j + 1..]);
    var a, b := multiset(ys[..j]), multiset(ys[j + 1..]);
    assert multiset(xs) == multiset{xs[0]} + multiset(xs[1..]);
    assert multiset(ys) == a + (multiset{ys[j]} + b);
    assert multiset(ys[..j] + ys[j + 1..]) == a + b;
    assert multiset(xs[1..]) == multiset(xs) - multiset{xs[0]};
    assert a + b == multiset(ys) - multiset{ys[j]};
  }

  lemma {:induction false} SameCount(xs: seq<Arg>, ys: seq<Arg>, o: Option4)
    requires multiset(xs) == multiset(ys)
    ensures Count(xs, o) == Count(ys, o)
    decreases |xs|
  {
    hide OptionOf;
    if xs == [] {
      assert |multiset(ys)| == 0;
    } else {
      assert xs[0] in multiset(ys);
      var j :| 0 <= j < |ys| && ys[j] == xs[0];
      var rest := ys[..j] + ys[j + 1..];
      WithoutOne(xs, ys, j);
      assert ys == ys[..j] + ([ys[j]] + ys[j + 1..]);
      SameCount(xs[1..], rest, o);
      CountJoin(ys[..j], ys[j + 1..], o);
      CountJoin(ys[..j], [ys[j]] + ys[j + 1..], o);
    }
  }

  /** The order of the arguments changes neither whether parsing succeeds nor the
      spec. */
  lemma OrderIrrelevant(xs: seq<Arg>, ys: seq<Arg>)
    requires multiset(xs) == multiset(ys)
    ensures Parsed(xs, BLANK, {}) == Parsed(ys, BLANK, {})
  {
    SucceedsIff(xs);
    SucceedsIff(ys);
    forall o: Option4 ensures Count(xs, o) == Count(ys, o) { SameCount(xs, ys, o); }
    forall a ensures a in xs <==> a in ys {
      assert a in xs <==> a in multiset(xs);
      assert a in ys <==> a in multiset(ys);
    }
    if Acceptable(xs) {
      forall o: Option4 ensures Setter(xs, o) == Setter(ys, o) {
        SetterIsIn(xs, o);
        SetterIsIn(ys, o);
        if Setter(xs, o).Some? { OnlySetter(ys, o, Setter(xs, o).value); }
      }
    }
  }
}
