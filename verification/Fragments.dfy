/** The fragment extractor of the fuzzer's corpus (fuzzer/corpus.cpp): function
    declarations are found by their keyword, parentheses and balanced braces. */
module Fragments {
  import opened Wrappers

  // ---------------------------------------------------------------- braces

  function Delta(c: char): int { if c == '{' then 1 else if c == '}' then -1 else 0 }

  function Depth(s: string): int { if s == [] then 0 else Depth(s[..|s| - 1]) + Delta(s[|s| - 1]) }

  /** From an opening brace to the one that closes it. */
  ghost predicate Balanced(body: string) {
    && |body| >= 2 && body[0] == '{' && body[|body| - 1] == '}' && Depth(body) == 0
    && forall k | 0 < k < |body| :: Depth(body[..k]) > 0
  }

  lemma DepthStep(s: string, open: nat, k: nat)
    requires open <= k < |s|
    ensures Depth(s[open..k + 1]) == Depth(s[open..k]) + Delta(s[k])
  {
    var t := s[open..k + 1];
    assert t[..|t| - 1] == s[open..k] && t[|t| - 1] == s[k];
  }

  /** The position of the brace that closes the one at `open`. */
  function CloseFrom(s: string, k: nat, depth: int): Option<nat>
    requires k <= |s|
    decreases |s| - k
  {
    if k == |s| then None
    else
      var d := depth + Delta(s[k]);
      if d <= 0 then Some(k) else CloseFrom(s, k + 1, d)
  }

  lemma {:induction false} CloseIs(s: string, open: nat, k: nat)
    requires open < k <= |s| && s[open] == '{'
    requires forall j | open < j <= k :: Depth(s[open..j]) > 0
    ensures match CloseFrom(s, k, Depth(s[open..k]))
      case Some(c) => k <= c < |s| && Balanced(s[open..c + 1])
      case None => forall j | open < j <= |s| :: Depth(s[open..j]) > 0
    decreases |s| - k
  {
    if k < |s| {
      DepthStep(s, open, k);
      if Depth(s[open..k + 1]) > 0 {
        CloseIs(s, open, k + 1);
      } else {
        var body := s[open..k + 1];
        forall j | 0 < j < |body| ensures Depth(body[..j]) > 0 {
          assert body[..j] == s[open..open + j];
        }
      }
    }
  }

  /** Match braces by counting. */
  method MatchBrace(s: string, open: nat) returns (close: Option<nat>)
    requires open < |s| && s[open] == '{'
    ensures close == CloseFrom(s, open + 1, 1)
    ensures match close
      case Some(c) => open < c < |s| && Balanced(s[open..c + 1])
      case None => forall j | open < j <= |s| :: Depth(s[open..j]) > 0
  {
    var depth := 1;
    var closeBrace := open + 1;
    OpenDepth(s, open);
    CloseIs(s, open, open + 1);
    while closeBrace < |s| && depth > 0
      invariant open < closeBrace <= |s| && depth >= 0
      invariant depth > 0 ==> CloseFrom(s, closeBrace, depth) == CloseFrom(s, open + 1, 1)
      invariant depth == 0 ==> closeBrace < |s| && CloseFrom(s, open + 1, 1) == Some(closeBrace)
      decreases |s| - closeBrace, depth
    {
      if s[closeBrace] == '{' { depth := depth + 1; } else if s[closeBrace] == '}' { depth := depth - 1; }
      if depth > 0 { closeBrace := closeBrace + 1; }
    }
    return if depth != 0 then None else Some(closeBrace);
  }

  lemma OpenDepth(s: string, open: nat)
    requires open < |s| && s[open] == '{'
    ensures Depth(s[open..open + 1]) == 1
  {
    DepthStep(s, open, open);
    assert s[open..open] == [];
  }

  // ---------------------------------------------------------------- searching

  predicate KeywordAt(s: string, i: nat) { i + 3 <= |s| && s[i] == 'f' && s[i + 1] == 'n' && s[i + 2] == ' ' }

  function FindKeyword(s: string, from: nat): (r: Option<nat>)
    ensures match r
      case Some(i) => from <= i && KeywordAt(s, i) && forall j | from <= j < i :: !KeywordAt(s, j)
      case None => forall j | from <= j :: !KeywordAt(s, j)
    decreases |s| - from
  {
    if from >= |s| then None else if KeywordAt(s, from) then Some(from) else FindKeyword(s, from + 1)
  }

  function Find(s: string, c: char, from: nat): (r: Option<nat>)
    ensures match r
      case Some(i) => from <= i < |s| && s[i] == c && forall j | from <= j < i :: s[j] != c
      case None => forall j | from <= j < |s| :: s[j] != c
    decreases |s| - from
  {
    if from >= |s| then None else if s[from] == c then Some(from) else Find(s, c, from + 1)
  }

  method FindKeywordFrom(s: string, from: nat) returns (r: Option<nat>)
    ensures r == FindKeyword(s, from)
  {
    var i := from;
    while i < |s|
      invariant from <= i && FindKeyword(s, i) == FindKeyword(s, from)
    {
      if KeywordAt(s, i) { return Some(i); }
      i := i + 1;
    }
    return None;
  }

  method FindFrom(s: string, c: char, from: nat) returns (r: Option<nat>)
    ensures r == Find(s, c, from)
  {
    var i := from;
    while i < |s|
      invariant from <= i && Find(s, c, i) == Find(s, c, from)
    {
      if s[i] == c { return Some(i); }
      i := i + 1;
    }
    return None;
  }

  // ---------------------------------------------------------------- fragments

  /** Positions of the keyword, the opening and the closing brace. */
  datatype Fragment = Fragment(start: nat, open: nat, close: nat, name: string, signature: string, body: string)

  /** What comes of one keyword: a fragment, or where to go on. */
  datatype Attempt = Take(fragment: Fragment) | Skip(next: nat)

  predicate IsWord(c: char) { 'a' <= c <= 'z' || 'A' <= c <= 'Z' || '0' <= c <= '9' || c == '_' }

  function SkipBlanks(s: string, from: nat): (r: nat)
    requires from <= |s|
    ensures from <= r <= |s| && (forall k | from <= k < r :: s[k] == ' ') && (r < |s| ==> s[r] != ' ')
    decreases |s| - from
  {
    if from < |s| && s[from] == ' ' then SkipBlanks(s, from + 1) else from
  }

  function WordEnd(s: string, from: nat, to: nat): (r: nat)
    requires to <= |s|
    ensures from <= r && (from <= to ==> r <= to) && (forall k | from <= k < r :: k < |s| && IsWord(s[k]))
    ensures from <= r < to ==> !IsWord(s[r])
    decreases if from < to then to - from else 0
  {
    if from < to && IsWord(s[from]) then WordEnd(s, from + 1, to) else from
  }

  function TrimEnd(s: string, start: nat, end: nat): (r: nat)
    requires start <= end <= |s|
    ensures start <= r <= end && (forall k | r <= k < end :: s[k] == ' ') && (r > start ==> s[r - 1] != ' ')
    decreases end
  {
    if end > start && s[end - 1] == ' ' then TrimEnd(s, start, end - 1) else end
  }

  function Cut(s: string, start: nat, paren: nat, open: nat, close: nat): (r: Fragment)
    requires start + 3 <= paren < open < close < |s| && s[paren] == '('
    ensures r.start == start && r.open == open && r.close == close
  {
    var nameStart := SkipBlanks(s, start + 3);
    assert nameStart <= paren;
    Fragment(start, open, close, s[nameStart..WordEnd(s, nameStart, paren)],
             s[start..TrimEnd(s, start, open)], s[open..close + 1])
  }

  function Try(s: string, start: nat): Attempt
    requires KeywordAt(s, start)
  {
    var paren := Find(s, '(', start);
    if paren.None? then Skip(start + 3)
    else
      var endParen := Find(s, ')', paren.value);
      if endParen.None? then Skip(paren.value + 1)
      else
        var open := Find(s, '{', endParen.value);
        if open.None? then Skip(endParen.value + 1)
        else
          var close := CloseFrom(s, open.value + 1, 1);
          if close.None? then Skip(open.value + 1)
          else
            OpenDepth(s, open.value);
            CloseIs(s, open.value, open.value + 1);
            Take(Cut(s, start, paren.value, open.value, close.value))
  }

  lemma TryAdvances(s: string, start: nat)
    requires KeywordAt(s, start)
    ensures match Try(s, start)
      case Take(f) => f.start == start < f.open < f.close < |s|
      case Skip(n) => start < n
  {
    if Try(s, start).Take? {
      var o := Try(s, start).fragment.open;
      OpenDepth(s, o);
      CloseIs(s, o, o + 1);
    }
  }

  function Scan(s: string, pos: nat): seq<Fragment>
    decreases |s| - pos
  {
    var k := FindKeyword(s, pos);
    if k.None? then []
    else
      TryAdvances(s, k.value);
      match Try(s, k.value)
      case Take(f) => [f] + Scan(s, f.close + 1)
      case Skip(n) => Scan(s, n)
  }

  /** The declaration's name: blanks skipped, then word characters. */
  method ReadName(s: string, start: nat, paren: nat) returns (name: string)
    requires start + 3 <= paren < |s| && s[paren] == '('
    ensures name == s[SkipBlanks(s, start + 3)..WordEnd(s, SkipBlanks(s, start + 3), paren)]
  {
    var nameStart := start + 3;
    while nameStart < |s| && s[nameStart] == ' '
      invariant start + 3 <= nameStart <= |s| && SkipBlanks(s, nameStart) == SkipBlanks(s, start + 3)
    {
      nameStart := nameStart + 1;
    }
    assert nameStart <= paren;
    var nameEnd := nameStart;
    while nameEnd < paren && IsWord(s[nameEnd])
      invariant nameStart <= nameEnd <= paren && WordEnd(s, nameEnd, paren) == WordEnd(s, nameStart, paren)
    {
      nameEnd := nameEnd + 1;
    }
    return s[nameStart..nameEnd];
  }

  method TrimSignature(s: string, start: nat, open: nat) returns (signature: string)
    requires start < open <= |s|
    ensures signature == s[start..TrimEnd(s, start, open)]
  {
    var sigEnd := open;
    while sigEnd > start && s[sigEnd - 1] == ' '
      invariant start <= sigEnd <= open && TrimEnd(s, start, sigEnd) == TrimEnd(s, start, open)
    {
      sigEnd := sigEnd - 1;
    }
    return s[start..sigEnd];
  }

  /** What follows one keyword. */
  method TryAt(source: string, start: nat) returns (a: Attempt)
    requires KeywordAt(source, start)
    ensures a == Try(source, start)
  {
    hide Depth, Balanced, CloseFrom, SkipBlanks, WordEnd, TrimEnd;
    var openParen := FindFrom(source, '(', start);
    if openParen.None? { return Skip(start + 3); }
    var closeParen := FindFrom(source, ')', openParen.value);
    if closeParen.None? { return Skip(openParen.value + 1); }
    var openBrace := FindFrom(source, '{', closeParen.value);
    if openBrace.None? { return Skip(closeParen.value + 1); }
    var closeBrace := MatchBrace(source, openBrace.value);
    if closeBrace.None? { return Skip(openBrace.value + 1); }
    KeywordBefore(source, start);
    var name := ReadName(source, start, openParen.value);
    var signature := TrimSignature(source, start, openBrace.value);
    var body := source[openBrace.value..closeBrace.value + 1];
    return Take(Fragment(start, openBrace.value, closeBrace.value, name, signature, body));
  }

  method ExtractFragmentsFrom(source: string) returns (functions: seq<Fragment>)
    ensures functions == Scan(source, 0)
  {
    hide KeywordAt, Scan, Try, FindKeyword;
    functions := [];
    var searchPos: nat := 0;
    while searchPos < |source|
      invariant functions + Scan(source, searchPos) == Scan(source, 0)
      decreases |source| - searchPos
    {
      ScanStep(source, searchPos);
      var fn := FindKeywordFrom(source, searchPos);
      if fn.None? { return; }
      TryAdvances(source, fn.value);
      var a := TryAt(source, fn.value);
      match a
      case Take(f) =>
        functions := functions + [f];
        searchPos := f.close + 1;
      case Skip(n) =>
        searchPos := n;
    }
    ScanEnds(source, searchPos);
  }

  lemma ScanStep(s: string, pos: nat)
    ensures var k := FindKeyword(s, pos);
      Scan(s, pos) ==
        if k.None? then []
        else match Try(s, k.value) case Take(f) => [f] + Scan(s, f.close + 1) case Skip(n) => Scan(s, n)
  {
    hide Try, KeywordAt, FindKeyword;
  }

  lemma ScanEnds(s: string, pos: nat)
    requires pos >= |s|
    ensures Scan(s, pos) == []
  {
  }

  /** The first parenthesis after the keyword is after all of it. */
  lemma KeywordBefore(s: string, start: nat)
    requires KeywordAt(s, start)
    ensures Find(s, '(', start).Some? ==> start + 3 <= Find(s, '(', start).value
  {
  }

  // ---------------------------------------------------------------- what is extracted

  /** A fragment as the source has it: signature, blanks, and a balanced body. */
  ghost predicate Sound(s: string, f: Fragment) {
    && f.start < f.open < f.close < |s| && KeywordAt(s, f.start)
    && f.body == s[f.open..f.close + 1] && Balanced(f.body)
    && |f.signature| <= f.open - f.start && f.signature == s[f.start..f.start + |f.signature|]
    && (forall k | f.start + |f.signature| <= k < f.open :: s[k] == ' ')
    && f.signature != [] && f.signature[|f.signature| - 1] != ' '
    && (forall k | 0 <= k < |f.name| :: IsWord(f.name[k]))
  }

  /** By character code: a lower-case letter, an upper-case one, a digit, or `_`. */
  predicate WordCode(n: int) { 97 <= n <= 122 || 65 <= n <= 90 || 48 <= n <= 57 || n == 95 }

  /** The name is the longest word after `fn` and its blanks. */
  ghost predicate Named(s: string, f: Fragment) {
    f.start + 3 <= |s| && s[f.start..f.start + 3] == "fn " &&
    exists a: nat, b: nat :: Word(s, f.start + 3, a, b) && f.name == s[a..b]
  }

  ghost predicate Word(s: string, from: nat, a: nat, b: nat) {
    && from <= a <= b < |s| && (forall k | from <= k < a :: s[k] == ' ') && s[a] != ' '
    && (forall k | a <= k < b :: WordCode(s[k] as int)) && !WordCode(s[b] as int)
  }

  /** The body opens at the first brace after the first `)` after the first `(`. */
  ghost predicate Headed(s: string, f: Fragment) {
    exists p: nat, e: nat :: First(s, '(', f.start, p) && First(s, ')', p, e) && First(s, '{', e, f.open)
  }

  ghost predicate First(s: string, c: char, from: nat, at: nat) {
    from <= at < |s| && s[at] == c && forall k | from <= k < at :: s[k] != c
  }

  lemma TakeNamed(s: string, start: nat)
    requires KeywordAt(s, start) && Try(s, start).Take?
    ensures Named(s, Try(s, start).fragment) && Headed(s, Try(s, start).fragment)
  {
    hide Balanced, CloseFrom, Depth, SkipBlanks, WordEnd, TrimEnd;
    var f := Try(s, start).fragment;
    var p := Find(s, '(', start).value;
    var e := Find(s, ')', p).value;
    KeywordBefore(s, start);
    assert First(s, '(', start, p) && First(s, ')', p, e) && First(s, '{', e, f.open);
    var a := SkipBlanks(s, start + 3);
    var b := WordEnd(s, a, p);
    assert a <= p;
    assert Word(s, start + 3, a, b);
    assert f.name == s[a..b];
  }

  /** Where the parts of a successful attempt are. */
  lemma TakeParts(s: string, start: nat) returns (paren: nat)
    requires KeywordAt(s, start) && Try(s, start).Take?
    ensures var f := Try(s, start).fragment;
      && start + 3 <= paren < f.open < f.close < |s| && s[paren] == '(' && s[f.open] == '{'
      && CloseFrom(s, f.open + 1, 1) == Some(f.close) && f == Cut(s, start, paren, f.open, f.close)
  {
    hide Depth, Balanced, CloseFrom, Cut;
    paren := Find(s, '(', start).value;
    KeywordBefore(s, start);
    TryAdvances(s, start);
  }

  lemma TakeSound(s: string, start: nat)
    requires KeywordAt(s, start) && Try(s, start).Take?
    ensures Sound(s, Try(s, start).fragment)
  {
    hide Balanced, CloseFrom, Depth, Try, SkipBlanks, WordEnd, TrimEnd;
    var f := Try(s, start).fragment;
    var paren := TakeParts(s, start);
    OpenDepth(s, f.open);
    CloseIs(s, f.open, f.open + 1);
    var e := TrimEnd(s, start, f.open);
    assert s[start] == 'f' && e > start;
  }

  /** Bodies are balanced, and spans are disjoint and in the order of the source. */
  lemma {:induction false} ScanSound(s: string, pos: nat)
    ensures var fs := Scan(s, pos);
      && (forall i | 0 <= i < |fs| :: pos <= fs[i].start && Sound(s, fs[i]) && Named(s, fs[i]) && Headed(s, fs[i]))
      && (forall i, j | 0 <= i < j < |fs| :: fs[i].close < fs[j].start)
    decreases |s| - pos
  {
    hide KeywordAt, Sound, Named, Headed, Try;
    var k := FindKeyword(s, pos);
    ScanStep(s, pos);
    if k.Some? {
      TryAdvances(s, k.value);
      KeywordInside(s, k.value);
      match Try(s, k.value)
      case Take(f) =>
        TakeSound(s, k.value);
        TakeNamed(s, k.value);
        ScanSound(s, f.close + 1);
      case Skip(n) =>
        ScanSound(s, n);
    }
  }

  lemma KeywordInside(s: string, i: nat)
    requires KeywordAt(s, i)
    ensures i + 3 <= |s|
  {
  }

  /** Every opening brace has its closing one. */
  ghost predicate WellBraced(s: string) {
    forall o: nat | o < |s| && s[o] == '{' :: CloseFrom(s, o + 1, 1).Some?
  }

  lemma FindSame(s: string, c: char, a: nat, b: nat)
    requires a <= b && Find(s, c, b).Some?
    ensures Find(s, c, a).Some? && Find(s, c, a).value <= Find(s, c, b).value
  {
  }

  /** Where braces match up, a failed attempt means that no later one succeeds. */
  lemma SkipMeansNoMore(s: string, p: nat, q: nat)
    requires WellBraced(s) && KeywordAt(s, p) && KeywordAt(s, q) && p <= q && Try(s, p).Skip?
    ensures Try(s, q).Skip?
  {
    hide KeywordAt;
    var paren := Find(s, '(', p);
    if Find(s, '(', q).Some? {
      FindSame(s, '(', p, q);
      var later := Find(s, '(', q).value;
      if Find(s, ')', later).Some? {
        FindSame(s, ')', paren.value, later);
        var end := Find(s, ')', later).value;
        if Find(s, '{', end).Some? { FindSame(s, '{', Find(s, ')', paren.value).value, end); }
      }
    }
  }

  /** In a source whose braces match up, every declaration that could be extracted
      on its own is extracted or lies inside one that is. */
  lemma {:induction false} ScanComplete(s: string, pos: nat, q: nat)
    requires WellBraced(s) && pos <= q && KeywordAt(s, q) && Try(s, q).Take?
    ensures exists f :: f in Scan(s, pos) && f.start <= q <= f.close
    decreases |s| - pos
  {
    hide KeywordAt, Try, WellBraced;
    var k := FindKeyword(s, pos);
    ScanStep(s, pos);
    TryAdvances(s, k.value);
    KeywordInside(s, k.value);
    match Try(s, k.value)
    case Take(f) =>
      if q > f.close {
        ScanComplete(s, f.close + 1, q);
        var g :| g in Scan(s, f.close + 1) && g.start <= q <= g.close;
        assert g in Scan(s, pos);
      } else {
        assert f in Scan(s, pos);
      }
    case Skip(n) =>
      SkipMeansNoMore(s, k.value, q);
      assert false;
  }
}
