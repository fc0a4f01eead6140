/** The meaning of an OpenQASM text, stated without the parser. */
module Meaning {
  import opened Prelude
  import opened Text
  import opened Numbers
  import opened Ir
  import opened Qasm
  import opened QasmLines
  import opened Patterns
  import opened Recognised

  // ---------------------------------------------------------------- no line is two things

  lemma HeaderShape(s: string)
    requires MatchHeader(s)
    ensures |s| > 8 && Many(Word, s) == Match("OPENQASM", s[8..]) && IsBlank(s[8])
    ensures MatchRef(Skip(Blank, s[8..])) == NoMatch
  {
    var a := s[8..];
    assert s == "OPENQASM" + a;
    ManyIs(Word, "OPENQASM", a);
    NoRefInVersion(Skip(Blank, a));
    hide Span, AtEnd;
  }

  lemma {:induction false} SpanWithin(k: Class, v: string, e: string)
    requires e != "" && !In(k, e[0])
    ensures Span(k, v + e) <= |v|
    decreases |v|
  {
    if v == "" {
      assert v + e == e;
    } else {
      assert (v + e)[0] == v[0] && (v + e)[1..] == v[1..] + e;
      SpanWithin(k, v[1..], e);
    }
  }

  lemma NoRefInVersion(c: string)
    requires Many(Version, c).Match? && AtEnd(Many(Version, c).rest)
    ensures MatchRef(c) == NoMatch
  {
    var v, e := Many(Version, c).got, Many(Version, c).rest;
    var n := Span(Word, c);
    EndStarts(e);
    assert c == v + e;
    SpanWithin(Word, v, e);
    assert if n < |v| then In(Version, c[n]) else c[n] == e[0] by {
      if n < |v| { assert c[n] == v[n]; }
    }
    NotLiteral("[", c[n..], 0);
    hide Span, AtEnd;
  }

  lemma EndStarts(e: string)
    requires AtEnd(e)
    ensures e != "" && (IsBlank(e[0]) || e[0] == ';')
  {
    if e != "" && !IsBlank(e[0]) { assert Skip(Blank, e) == e; assert e[..1] == ";"; }
  }

  lemma IncludeStarts(s: string)
    requires MatchInclude(s)
    ensures |s| > 7 && s[..7] == "include" && IsBlank(s[7])
    ensures Skip(Blank, s[7..]) != "" && Skip(Blank, s[7..])[0] == '"'
  {
    var a := s[7..];
    assert Literal("\"", Skip(Blank, a)).Match? && Many(Blank, a).Match? by { hide AtEnd, Span; }
    var c := Skip(Blank, a);
    hide AtEnd, MatchInclude;
    assert c[..1][0] == '"';
    assert a[..Span(Blank, a)][0] == a[0];
    hide Span;
  }

  lemma IncludeShape(s: string)
    requires MatchInclude(s)
    ensures |s| > 7 && Many(Word, s) == Match("include", s[7..]) && IsBlank(s[7])
    ensures MatchRef(Skip(Blank, s[7..])) == NoMatch
  {
    hide MatchInclude, Skip, Many, MatchRef;
    IncludeStarts(s);
    var a := s[7..];
    assert s == "include" + a && Stops(Word, a);
    ManyIs(Word, "include", a);
    NoWord(Skip(Blank, a));
  }

  /** The parts of a declaration. */
  lemma DeclParts(head: string, s: string)
    requires MatchDecl(head, s).Some?
    ensures |s| >= |head| && s[..|head|] == head && MatchIndex(s[|head|..]).Match?
    ensures var c := Skip(Blank, MatchIndex(s[|head|..]).rest); c != "" && IsWord(c[0])
  {
    hide Span, AtEnd, MatchIndex;
  }

  lemma DeclShape(word: string, s: string)
    requires All(Word, word) && word != "" && MatchDecl(word + "[", s).Some?
    ensures Many(Word, s) == Match(word, s[|word|..]) && |s| > |word| && s[|word|] == '['
    ensures MatchRef(s).Match? && Literal("=", Skip(Blank, MatchRef(s).rest)) == NoMatch
  {
    hide *;
    DeclParts(word + "[", s);
    var a := s[|word| + 1..];
    Rest(word, s);
    BracketIsNoWord(a);
    ManyIs(Word, word, "[" + a);
    RefBy(s, word, a);
    WordIsNoEquals();
    NotLiteral("=", Skip(Blank, MatchIndex(a).rest), 0);
  }

  lemma Rest(word: string, s: string)
    requires |s| > |word| && s[..|word| + 1] == word + "["
    ensures s == word + ("[" + s[|word| + 1..]) && s[|word|..] == "[" + s[|word| + 1..] && s[|word|] == '['
  {
    assert s[|word|] == s[..|word| + 1][|word|];
  }

  lemma BracketIsNoWord(a: string)
    ensures Stops(Word, "[" + a)
  {
  }

  lemma WordIsNoEquals()
    ensures !IsWord('=')
  {
  }

  lemma RefBy(s: string, w: string, a: string)
    requires Many(Word, s) == Match(w, "[" + a)
    ensures MatchRef(s) == MatchIndex(a)
  {
    LiteralIs("[", a);
    hide Many, Literal, MatchIndex;
  }

  lemma MeasureShape(s: string)
    requires MatchMeasure(s).Some?
    ensures MatchRef(s).Match? && Literal("=", Skip(Blank, MatchRef(s).rest)).Match?
    ensures Many(Word, s).Match? && Many(Word, s).rest != "" && Many(Word, s).rest[0] == '['
  {
    RefShape(s);
    hide Span, AtEnd, MatchRef, Literal;
  }

  lemma RefShape(s: string)
    requires MatchRef(s).Match?
    ensures Many(Word, s).Match? && Many(Word, s).rest != "" && Many(Word, s).rest[0] == '['
  {
    assert Many(Word, s).rest[..1] == "[";
    hide Span, MatchIndex;
  }

  lemma GateShape(s: string)
    requires MatchGate(s).Some?
    ensures Many(Word, s).Match? && Many(Word, s).rest != ""
    ensures var a := Many(Word, s).rest;
            a[0] == '(' || (IsBlank(a[0]) && MatchRef(Skip(Blank, a)).Match?)
  {
    var a := Many(Word, s).rest;
    GateParts(s);
    ArgsShape(a);
    hide Span, AtEnd, MatchRef, MoreRefs, MatchGate, MatchArgs;
  }

  lemma ArgsShape(a: string)
    requires MatchArgs(a).Some?
    ensures (a != "" && a[0] == '(') || MatchArgs(a).value == (None, a)
  {
    if Literal("(", a).Match? { assert a[..1] == "("; }
    hide Span;
  }

  lemma CommentShape(s: string)
    requires Accepts(Comment, s)
    ensures Many(Word, s) == NoMatch
  {
    assert s[..2][0] == s[0];
  }

  /** What follows the first word of a line tells its kind. */
  function KindOf(s: string): Recogniser {
    match Many(Word, s)
    case NoMatch => Comment
    case Match(w, a) =>
      if a == "" then Comment
      else if a[0] == '[' then
        if MatchRef(s).Match? && Literal("=", Skip(Blank, MatchRef(s).rest)).Match? then Measurement
        else if w == "bit" then BitDecl else QubitDecl
      else if a[0] == '(' || MatchRef(Skip(Blank, a)).Match? then GateCall
      else if w == "OPENQASM" then Header else Include
  }

  lemma NotHeaderWord()
    ensures "include" != "OPENQASM"
  {
    assert "include"[0] != "OPENQASM"[0];
  }

  lemma KindIs(k: Recogniser, line: string)
    requires Accepts(k, line)
    ensures k == KindOf(line)
  {
    hide MatchHeader, MatchInclude, MatchDecl, MatchMeasure, MatchGate, Many, MatchRef, Skip, Literal;
    match k
    case Comment => CommentShape(line);
    case Header => HeaderShape(line);
    case Include => IncludeShape(line); NotHeaderWord();
    case BitDecl => assert "bit" + "[" == "bit["; DeclShape("bit", line);
    case QubitDecl => assert "qubit" + "[" == "qubit["; DeclShape("qubit", line);
    case Measurement => MeasureShape(line);
    case GateCall => GateShape(line);
  }

  /** No line whatever is accepted by two recognisers, so their order does not matter. */
  lemma AtMostOneRecogniser(line: string, j: Recogniser, k: Recogniser)
    requires Accepts(j, line) && Accepts(k, line)
    ensures j == k
  {
    KindIs(j, line);
    KindIs(k, line);
    hide Accepts, KindOf;
  }

  // ---------------------------------------------------------------- statements

  datatype Statement = Silent | Declares(n: nat) | Measures(q: nat) | Calls(g: GateText)

  ghost predicate DigitsOf(d: string, n: nat) {
    d != "" && All(Digit, d) && NatValue(d) == n
  }

  /** The line is a way of writing the statement. */
  ghost predicate Says(line: string, st: Statement) {
    match st
    case Silent =>
      || line == ""
      || (|line| >= 2 && line[0] == '/' && line[1] == '/')
      || Matches(HEADER_RE, line, [])
      || Matches(INCLUDE_RE, line, [])
      || exists d :: Matches(DeclRe("bit["), line, [d])
    case Declares(n) => exists d :: Matches(DeclRe("qubit["), line, [d]) && DigitsOf(d, n)
    case Measures(q) => exists c, d :: Matches(MEASURE_RE, line, [c, d]) && DigitsOf(d, q)
    case Calls(g) => g.refs != [] && Matches(GateRe(g.args.Some?, |g.refs| - 1), line, GateCaps(g))
  }

  /** What the parser takes a line for. */
  function StatementOf(line: string): Option<Statement> {
    if Ignored(line) then Some(Silent)
    else
      match MatchDecl("qubit[", line)
      case Some(d) => Some(Declares(NatValue(d)))
      case None =>
        match MatchMeasure(line)
        case Some(q) => Some(Measures(NatValue(q)))
        case None =>
          match MatchGate(line)
          case Some(g) => Some(Calls(g))
          case None => None
  }

  lemma EmptyIsNothing(k: Recogniser)
    ensures !Accepts(k, "")
  {
    if Accepts(k, "") { KindIs(k, ""); }
  }

  lemma DigitsRead(head: string, line: string)
    ensures MatchDecl(head, line).Some? ==> MatchDecl(head, line).value != ""
    ensures MatchMeasure(line).Some? ==> MatchMeasure(line).value != ""
  {
    hide AtEnd, Span;
  }

  lemma BitsSay(line: string)
    ensures Accepts(BitDecl, line) <==> exists d :: Matches(DeclRe("bit["), line, [d])
  {
    hide MatchDecl, Matches, Accepts;
    AcceptsMeans(line);
    if d :| Matches(DeclRe("bit["), line, [d]) { DeclarationsExactly("bit[", line, d); }
    if MatchDecl("bit[", line).Some? { DeclarationsExactly("bit[", line, MatchDecl("bit[", line).value); }
  }

  lemma SilentSays(line: string)
    ensures Says(line, Silent) <==> Ignored(line)
  {
    hide Accepts, Matches;
    CommentsExactly(line);
    HeadersExactly(line);
    IncludesExactly(line);
    BitsSay(line);
  }

  lemma DeclaresSays(line: string, n: nat)
    ensures Says(line, Declares(n)) <==>
            MatchDecl("qubit[", line).Some? && NatValue(MatchDecl("qubit[", line).value) == n
  {
    hide MatchDecl, Matches, NatValue;
    var m := MatchDecl("qubit[", line);
    if d :| Matches(DeclRe("qubit["), line, [d]) && DigitsOf(d, n) { DeclarationsExactly("qubit[", line, d); }
    if m.Some? {
      DigitsRead("qubit[", line);
      DeclarationsExactly("qubit[", line, m.value);
    }
  }

  lemma MeasuresSays(line: string, q: nat)
    ensures Says(line, Measures(q)) <==> MatchMeasure(line).Some? && NatValue(MatchMeasure(line).value) == q
  {
    hide MatchMeasure, Matches, NatValue;
    var m := MatchMeasure(line);
    if c, d :| Matches(MEASURE_RE, line, [c, d]) && DigitsOf(d, q) { MeasurementsExactly(line, d); }
    if m.Some? {
      DigitsRead("qubit[", line);
      MeasurementsExactly(line, m.value);
    }
  }

  lemma CallsSays(line: string, g: GateText)
    ensures Says(line, Calls(g)) <==> MatchGate(line) == Some(g)
  {
    hide MatchGate, Matches, GateRe, GateCaps;
    GatesHaveOperands(line);
    if g.refs != [] { GateCallsExactly(line, g); }
  }

  /** The parser takes a line for exactly the statement it is a way of writing. */
  lemma StatementIs(line: string, st: Statement)
    ensures Says(line, st) <==> StatementOf(line) == Some(st)
  {
    hide Says, MatchHeader, MatchInclude, MatchDecl, MatchMeasure, MatchGate, NatValue, Literal;
    OneKind(line);
    match st
    case Silent => SilentSays(line);
    case Declares(n) => DeclaresSays(line, n);
    case Measures(q) => MeasuresSays(line, q);
    case Calls(g) => CallsSays(line, g);
  }

  lemma AcceptsMeans(line: string)
    ensures Accepts(BitDecl, line) <==> MatchDecl("bit[", line).Some?
    ensures Accepts(QubitDecl, line) <==> MatchDecl("qubit[", line).Some?
    ensures Accepts(Measurement, line) <==> MatchMeasure(line).Some?
    ensures Accepts(GateCall, line) <==> MatchGate(line).Some?
  {
    hide MatchDecl, MatchMeasure, MatchGate, MatchHeader, MatchInclude, Literal;
  }

  lemma OneKind(line: string)
    ensures MatchDecl("qubit[", line).Some? || MatchMeasure(line).Some? || MatchGate(line).Some? ==> !Ignored(line)
    ensures MatchMeasure(line).Some? || MatchGate(line).Some? ==> MatchDecl("qubit[", line).None?
    ensures MatchGate(line).Some? ==> MatchMeasure(line).None?
  {
    hide Accepts, MatchDecl, MatchMeasure, MatchGate;
    AcceptsMeans(line);
    forall k: Recogniser ensures Accepts(k, line) ==> line != "" && k == KindOf(line) {
      if Accepts(k, line) {
        KindIs(k, line);
        EmptyIsNothing(k);
      }
    }
    hide KindOf;
  }

  /** No line is a way of writing two statements. */
  lemma LineSaysOneThing(line: string, st: Statement, st': Statement)
    requires Says(line, st) && Says(line, st')
    ensures st == st'
  {
    StatementIs(line, st);
    StatementIs(line, st');
    hide Says, StatementOf;
  }
}
