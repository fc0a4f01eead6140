/** What the recognisers make of the lines the printer writes. */
module QasmLines {
  import opened Prelude
  import opened Text
  import opened Numbers
  import opened Qasm

  // ---------------------------------------------------------------- pieces

  lemma NatTextFacts(n: nat)
    ensures IntText(n) == NatText(n) && NatText(n) != "" && All(Digit, NatText(n)) && NatValue(NatText(n)) == n
  {
    NatRoundTrip(n);
  }

  lemma IndexIs(n: nat, rest: string)
    ensures MatchIndex(NatText(n) + ("]" + rest)) == Match(NatText(n), rest)
  {
    NatTextFacts(n);
    ManyIs(Digit, NatText(n), "]" + rest);
    LiteralIs("]", rest);
    hide Many, Literal, NatText;
  }

  lemma RefIs(w: string, n: nat, rest: string)
    requires w != "" && All(Word, w)
    ensures MatchRef(w + ("[" + (NatText(n) + ("]" + rest)))) == Match(NatText(n), rest)
  {
    var a := NatText(n) + ("]" + rest);
    ManyIs(Word, w, "[" + a);
    LiteralIs("[", a);
    IndexIs(n, rest);
    hide Many, Literal, NatText, MatchIndex;
  }

  lemma QubitTextIs(q: nat, rest: string)
    ensures QubitText(q) + rest == "q" + ("[" + (NatText(q) + ("]" + rest)))
    ensures MatchRef(QubitText(q) + rest) == Match(NatText(q), rest)
  {
    NatTextFacts(q);
    hide NatText;
    assert QubitText(q) + rest == "q" + ("[" + (NatText(q) + ("]" + rest)));
    RefIs("q", q, rest);
  }

  lemma AtEndIs()
    ensures AtEnd(";")
  {
    SkipNothing(Blank, ";");
    assert Literal(";", ";") == Match(";", "");
  }

  /** The operands after the first. */
  function TailText(qubits: seq<int>): string {
    if qubits == [] then "" else ", " + QubitText(qubits[0]) + TailText(qubits[1..])
  }

  lemma {:induction false} OperandsAre(qubits: seq<int>)
    requires qubits != []
    ensures OperandsText(qubits) == QubitText(qubits[0]) + TailText(qubits[1..])
    decreases |qubits|
  {
    var ts := QubitTexts(qubits);
    hide QubitText;
    if |qubits| == 1 {
      assert QubitText(qubits[0]) + "" == QubitText(qubits[0]);
    } else {
      OperandsAre(qubits[1..]);
      assert ts[1..] == QubitTexts(qubits[1..]);
      assert Join(ts, ", ") == ts[0] + ", " + Join(ts[1..], ", ");
      assert qubits[1..][0] == qubits[1] && qubits[1..][1..] == qubits[2..];
      assert TailText(qubits[1..]) == ", " + QubitText(qubits[1]) + TailText(qubits[2..]);
    }
  }

  ghost predicate Nats(qubits: seq<int>) {
    forall i :: 0 <= i < |qubits| ==> 0 <= qubits[i]
  }

  function Refs(qubits: seq<int>): (r: seq<string>)
    requires Nats(qubits)
    ensures |r| == |qubits|
    ensures forall i :: 0 <= i < |r| ==> r[i] == NatText(qubits[i])
    decreases |qubits|
  {
    if qubits == [] then [] else [NatText(qubits[0])] + Refs(qubits[1..])
  }

  /** One more operand. */
  lemma MoreBy(s: string, a: string, d: string, b: string)
    requires Literal(",", Skip(Blank, s)) == Match(",", a) && MatchRef(Skip(Blank, a)) == Match(d, b)
    ensures MoreRefs(s) == ([d] + MoreRefs(b).0, MoreRefs(b).1)
  {
    hide Literal, Skip, MatchRef;
  }

  lemma NoMore()
    ensures MoreRefs(";") == ([], ";")
  {
    SkipNothing(Blank, ";");
    NotLiteral(",", ";", 0);
    hide Skip, Literal;
  }

  lemma TailStarts(qubits: seq<int>)
    requires qubits != []
    ensures TailText(qubits) + ";" == "," + (" " + (QubitText(qubits[0]) + (TailText(qubits[1..]) + ";")))
  {
    hide QubitText;
  }

  lemma {:induction false} MoreRefsAre(qubits: seq<int>)
    requires Nats(qubits)
    ensures MoreRefs(TailText(qubits) + ";") == (Refs(qubits), ";")
    decreases |qubits|
  {
    if qubits == [] {
      assert "" + ";" == ";";
      NoMore();
      hide MoreRefs;
    } else {
      TailStarts(qubits);
      MoreRefsAre(qubits[1..]);
      assert Refs(qubits) == [NatText(qubits[0])] + Refs(qubits[1..]);
      hide TailText, MoreRefs, QubitText, Skip, Literal, MatchRef, Refs, NatText;
      var rest := TailText(qubits[1..]) + ";";
      var r := QubitText(qubits[0]) + rest;
      QubitTextIs(qubits[0], rest);
      assert Stops(Blank, r) && Stops(Blank, "," + (" " + r)) by { assert r[0] == 'q'; }
      SkipNothing(Blank, "," + (" " + r));
      LiteralIs(",", " " + r);
      SkipIs(Blank, " ", r);
      MoreBy("," + (" " + r), " " + r, NatText(qubits[0]), rest);
    }
  }

  // ---------------------------------------------------------------- gate lines

  /** The names the printer uses. */
  predicate GateName(name: string) {
    name == "rx" || name == "ry" || name == "rz" || name == "cz" || name == "id" || name == "sx" || name == "cx"
  }

  lemma OperandsMatch(qubits: seq<int>)
    requires qubits != [] && Nats(qubits)
    ensures var s := OperandsText(qubits) + ";";
            var m := MatchRef(s);
            && s[0] == 'q'
            && m.Match? && ([m.got] + MoreRefs(m.rest).0 == Refs(qubits)) && MoreRefs(m.rest).1 == ";"
  {
    OperandsAre(qubits);
    var rest := TailText(qubits[1..]) + ";";
    assert OperandsText(qubits) + ";" == QubitText(qubits[0]) + rest by { hide QubitText, TailText; }
    QubitTextIs(qubits[0], rest);
    MoreRefsAre(qubits[1..]);
    hide MatchRef, MoreRefs, TailText, OperandsText, NatText;
  }

  lemma NameIsWord(name: string)
    requires GateName(name)
    ensures name != "" && All(Word, name) && |name| == 2
  {
  }

  /** The parts of a gate line, put together. */
  lemma GateBy(s: string, name: string, a: string, args: Option<string>, c: string, refs: seq<string>)
    requires Many(Word, s) == Match(name, a) && MatchArgs(a) == Some((args, " " + c))
             && Many(Blank, " " + c) == Match(" ", c)
    requires MatchRef(c).Match? && [MatchRef(c).got] + MoreRefs(MatchRef(c).rest).0 == refs
    requires MoreRefs(MatchRef(c).rest).1 == ";" && AtEnd(";")
    ensures MatchGate(s) == Some(GateText(name, args, refs))
  {
    hide Many, MatchArgs, MatchRef, MoreRefs, AtEnd;
  }

  lemma PlainText(name: string, qubits: seq<int>)
    ensures Plainly(name, qubits) == name + (" " + (OperandsText(qubits) + ";"))
  {
    hide OperandsText;
  }

  lemma NoArgs(c: string)
    ensures MatchArgs(" " + c) == Some((None, " " + c))
  {
    NotLiteral("(", " " + c, 0);
    hide Literal;
  }

  lemma OneBlank(c: string)
    requires c != "" && c[0] == 'q'
    ensures Many(Blank, " " + c) == Match(" ", c)
  {
    ManyIs(Blank, " ", c);
    hide Many;
  }

  lemma NotWord(s: string)
    requires s != "" && (s[0] == ' ' || s[0] == '(')
    ensures Stops(Word, s)
  {
  }

  lemma PlainMatches(name: string, qubits: seq<int>)
    requires GateName(name) && qubits != [] && Nats(qubits)
    ensures MatchGate(Plainly(name, qubits)) == Some(GateText(name, None, Refs(qubits)))
  {
    hide *;
    var c := OperandsText(qubits) + ";";
    NameIsWord(name);
    PlainText(name, qubits);
    OperandsMatch(qubits);
    OneBlank(c);
    NoArgs(c);
    AtEndIs();
    NotWord(" " + c);
    ManyIs(Word, name, " " + c);
    GateBy(Plainly(name, qubits), name, " " + c, None, c, Refs(qubits));
  }

  lemma ArgsMatch(args: string, rest: string)
    requires All(NotClose, args)
    ensures MatchArgs("(" + (args + (")" + rest))) == Some((Some(args), rest))
  {
    LiteralIs("(", args + (")" + rest));
    SpanIs(NotClose, args, ")" + rest);
    assert (args + (")" + rest))[|args|..] == ")" + rest;
    assert (args + (")" + rest))[..|args|] == args;
    LiteralIs(")", rest);
    hide Span, Literal;
  }

  lemma ParametrisedText(name: string, args: string, qubits: seq<int>)
    ensures Parametrised(name, args, qubits) == name + ("(" + (args + (")" + (" " + (OperandsText(qubits) + ";")))))
  {
    hide OperandsText;
  }

  lemma ParametrisedMatches(name: string, args: string, qubits: seq<int>)
    requires GateName(name) && qubits != [] && Nats(qubits) && All(NotClose, args)
    ensures MatchGate(Parametrised(name, args, qubits)) == Some(GateText(name, Some(args), Refs(qubits)))
  {
    hide *;
    var c := OperandsText(qubits) + ";";
    var b := "(" + (args + (")" + (" " + c)));
    NameIsWord(name);
    ParametrisedText(name, args, qubits);
    OperandsMatch(qubits);
    OneBlank(c);
    ArgsMatch(args, " " + c);
    AtEndIs();
    NotWord(b);
    ManyIs(Word, name, b);
    GateBy(Parametrised(name, args, qubits), name, b, Some(args), c, Refs(qubits));
  }

  /** A gate line starts with a printed name and a blank or a bracket. */
  ghost predicate GateLine(line: string) {
    && |line| > 2
    && GateName(line[..2])
    && (line[2] == ' ' || line[2] == '(')
    && MatchGate(line).Some?
  }

  /** A statement that begins with a word and no index is no measurement. */
  lemma NoRef(w: string, rest: string)
    requires All(Word, w) && w != "" && rest != "" && !IsWord(rest[0]) && rest[0] != '['
    ensures MatchMeasure(w + rest) == None
  {
    ManyIs(Word, w, rest);
    NotLiteral("[", rest, 0);
    hide Many, Literal;
    assert MatchRef(w + rest) == NoMatch;
  }

  lemma NoHeader(s: string)
    requires s != "" && s[0] != 'O'
    ensures !MatchHeader(s)
  {
    NotLiteral("OPENQASM", s, 0);
    hide Literal;
  }

  lemma NoInclude(s: string)
    requires |s| > 1 && (s[0] != 'i' || s[1] != 'n')
    ensures !MatchInclude(s)
  {
    NotLiteral("include", s, if s[0] != 'i' then 0 else 1);
    hide Literal;
  }

  lemma NoDecl(head: string, s: string)
    requires head != "" && s != "" && s[0] != head[0]
    ensures MatchDecl(head, s) == None
  {
    NotLiteral(head, s, 0);
    hide Literal;
  }

  lemma NoComment(s: string)
    requires s != "" && s[0] != '/'
    ensures !Literal("//", s).Match?
  {
    NotLiteral("//", s, 0);
  }

  /** No other recogniser accepts a gate line. */
  lemma GateLineOnly(line: string, k: Recogniser)
    requires GateLine(line)
    ensures Accepts(k, line) <==> k == GateCall
  {
    var name, rest := line[..2], line[2..];
    assert line == name + rest;
    assert line[0] == name[0] && line[1] == name[1];
    NameIsWord(name);
    NoComment(line);
    NoHeader(line);
    NoInclude(line);
    NoDecl("bit[", line);
    NoDecl("qubit[", line);
    NoRef(name, rest);
    hide MatchHeader, MatchInclude, MatchDecl, MatchMeasure, MatchGate, Literal;
  }

  lemma NotLiteral(word: string, s: string, i: nat)
    requires i < |word| && i < |s| && s[i] != word[i]
    ensures Literal(word, s) == NoMatch
  {
    if |word| <= |s| { assert s[..|word|][i] == s[i]; }
  }

  // ---------------------------------------------------------------- the other lines

  lemma HeaderMatches()
    ensures MatchHeader(HEADER)
  {
    var a := " " + ("3.0" + ";");
    assert HEADER == "OPENQASM" + a;
    LiteralIs("OPENQASM", a);
    ManyIs(Blank, " ", "3.0" + ";");
    ManyIs(Version, "3.0", ";");
    AtEndIs();
    hide Literal, Many, AtEnd;
  }

  /** A word followed by something that is no operand makes no gate. */
  lemma NoOperand(w: string, c: string)
    requires All(Word, w) && w != "" && c != "" && !IsBlank(c[0]) && MatchRef(c) == NoMatch
    ensures MatchGate(w + (" " + c)) == None
  {
    ManyIs(Word, w, " " + c);
    NoArgs(c);
    ManyIs(Blank, " ", c);
    hide Many, MoreRefs, MatchArgs, MatchRef;
  }

  lemma NoBracket(w: string, rest: string)
    requires All(Word, w) && w != "" && rest != "" && !IsWord(rest[0]) && rest[0] != '['
    ensures MatchRef(w + rest) == NoMatch
  {
    ManyIs(Word, w, rest);
    NotLiteral("[", rest, 0);
    hide Many, Literal;
  }

  lemma FirstLineOnly(s: string, w: string, c: string, k: Recogniser)
    requires s == w + (" " + c) && All(Word, w) && |w| > 1 && c != "" && !IsBlank(c[0]) && MatchRef(c) == NoMatch
    requires w[0] == 'O' || (w[0] == 'i' && w[1] == 'n')
    requires if w[0] == 'O' then MatchHeader(s) else MatchInclude(s)
    ensures Accepts(k, s) <==> k == if w[0] == 'O' then Header else Include
  {
    NoOperand(w, c);
    NoRef(w, " " + c);
    assert s[0] == w[0] && s[1] == w[1];
    NoComment(s);
    NoDecl("bit[", s);
    NoDecl("qubit[", s);
    if w[0] == 'O' { NoInclude(s); } else { NoHeader(s); }
    hide MatchHeader, MatchInclude, MatchDecl, MatchMeasure, MatchGate, Literal;
  }

  lemma HeaderOnly(k: Recogniser)
    ensures Accepts(k, HEADER) <==> k == Header
  {
    hide *;
    HeaderMatches();
    var w, c := HeaderParts();
    FirstLineOnly(HEADER, w, c, k);
  }

  lemma HeaderParts() returns (w: string, c: string)
    ensures HEADER == w + (" " + c) && All(Word, w) && |w| > 1 && w[0] == 'O'
    ensures c != "" && !IsBlank(c[0]) && MatchRef(c) == NoMatch
  {
    w, c := "OPENQASM", "3.0;";
    assert HEADER == w + (" " + c) && c == "3" + ".0;";
    NoBracket("3", ".0;");
    hide MatchRef;
  }

  const QUOTED := "\"stdgates.inc\";"

  lemma IncludeMatches()
    ensures MatchInclude(INCLUDE)
  {
    assert INCLUDE == "include" + (" " + ("\"" + ("stdgates.inc" + ("\"" + ";"))));
    IncludeBy(INCLUDE, "stdgates.inc");
    hide MatchInclude;
  }

  lemma IncludeBy(s: string, file: string)
    requires file != "" && All(NotQuote, file) && s == "include" + (" " + ("\"" + (file + ("\"" + ";"))))
    ensures MatchInclude(s)
  {
    var c := file + ("\"" + ";");
    LiteralIs("include", " " + ("\"" + c));
    ManyIs(Blank, " ", "\"" + c);
    LiteralIs("\"", c);
    ManyIs(NotQuote, file, "\"" + ";");
    LiteralIs("\"", ";");
    AtEndIs();
    hide Literal, Many, AtEnd;
  }

  lemma NoWord(c: string)
    requires c != "" && !IsWord(c[0])
    ensures MatchRef(c) == NoMatch
  {
  }

  lemma IncludeOnly(k: Recogniser)
    ensures Accepts(k, INCLUDE) <==> k == Include
  {
    hide *;
    IncludeMatches();
    var w, c := IncludeParts();
    FirstLineOnly(INCLUDE, w, c, k);
  }

  lemma IncludeParts() returns (w: string, c: string)
    ensures INCLUDE == w + (" " + c) && All(Word, w) && |w| > 1 && w[0] == 'i' && w[1] == 'n'
    ensures c != "" && !IsBlank(c[0]) && MatchRef(c) == NoMatch
  {
    w, c := "include", QUOTED;
    assert INCLUDE == w + (" " + c) && c[0] == '"';
    NoWord(c);
    hide MatchRef;
  }

  function DeclText(word: string, n: int, reg: string): string {
    word + "[" + IntText(n) + "] " + reg + ";"
  }

  lemma DeclForms(word: string, n: nat, reg: string)
    ensures DeclText(word, n, reg) == (word + "[") + (NatText(n) + ("]" + (" " + (reg + ";"))))
    ensures DeclText(word, n, reg) == word + ("[" + (NatText(n) + ("]" + (" " + (reg + ";")))))
  {
    NatTextFacts(n);
    hide NatText, IntText;
  }

  lemma DeclBy(head: string, s: string, a: string, d: string, b: string, c: string, e: string)
    requires Literal(head, s) == Match(head, a) && MatchIndex(a) == Match(d, b) && Many(Blank, b) == Match(" ", c)
    requires Many(Word, c).Match? && Many(Word, c).rest == e && AtEnd(e)
    ensures MatchDecl(head, s) == Some(d)
  {
    hide Literal, MatchIndex, Many, AtEnd;
  }

  lemma DeclIs(word: string, reg: string, n: nat)
    requires All(Word, word) && word != "" && reg != "" && All(Word, reg)
    ensures MatchDecl(word + "[", DeclText(word, n, reg)) == Some(NatText(n))
  {
    var c := reg + ";";
    var b := " " + c;
    var a := NatText(n) + ("]" + b);
    DeclForms(word, n, reg);
    assert Stops(Blank, c) by { assert c[0] == reg[0]; }
    assert All(Blank, " ") && Stops(Word, ";");
    AtEndIs();
    hide *;
    LiteralIs(word + "[", a);
    IndexIs(n, b);
    ManyIs(Blank, " ", c);
    ManyIs(Word, reg, ";");
    DeclBy(word + "[", DeclText(word, n, reg), a, NatText(n), b, c, ";");
  }

  /** An index right after the first word makes no gate. */
  lemma NoGate(w: string, rest: string)
    requires All(Word, w) && w != "" && rest != "" && rest[0] == '['
    ensures MatchGate(w + rest) == None
  {
    ManyIs(Word, w, rest);
    NotLiteral("(", rest, 0);
    assert Many(Blank, rest) == NoMatch by { assert Span(Blank, rest) == 0; }
    hide Many, Literal, MatchRef, MoreRefs;
  }

  lemma NoMeasure(s: string, d: string, a: string, b: string)
    requires MatchRef(s) == Match(d, a) && Skip(Blank, a) == b && Literal("=", b) == NoMatch
    ensures MatchMeasure(s) == None
  {
    hide MatchRef, Skip, Literal;
  }

  /** A declaration is neither a measurement nor a gate. */
  lemma DeclIsNoStatement(word: string, reg: string, n: nat)
    requires All(Word, word) && word != "" && reg != "" && All(Word, reg)
    ensures MatchMeasure(DeclText(word, n, reg)) == None && MatchGate(DeclText(word, n, reg)) == None
  {
    var c := reg + ";";
    var rest := "[" + (NatText(n) + ("]" + (" " + c)));
    DeclForms(word, n, reg);
    assert c[0] == reg[0] && In(Word, reg[0]);
    assert Stops(Blank, c) && c[0] != '=' && All(Blank, " ") && rest[0] == '[' && rest != "";
    NotLiteral("=", c, 0);
    hide *;
    RefIs(word, n, " " + c);
    SkipIs(Blank, " ", c);
    NoMeasure(DeclText(word, n, reg), NatText(n), " " + c, c);
    NoGate(word, rest);
  }

  lemma QubitDeclOnly(n: nat, k: Recogniser)
    ensures Accepts(k, QubitDeclText(n)) <==> k == QubitDecl
    ensures MatchDecl("qubit[", QubitDeclText(n)) == Some(NatText(n))
  {
    var s := QubitDeclText(n);
    assert s == DeclText("qubit", n, "q") by { hide IntText; }
    assert "qubit" + "[" == "qubit[";
    assert |s| > 1 && s[0] == 'q';
    DeclIs("qubit", "q", n);
    DeclIsNoStatement("qubit", "q", n);
    NoComment(s);
    NoHeader(s);
    NoInclude(s);
    NoDecl("bit[", s);
    hide MatchHeader, MatchInclude, MatchDecl, MatchMeasure, MatchGate, Literal, IntText, NatText, DeclText,
      QubitDeclText;
  }

  lemma BitDeclOnly(n: nat, k: Recogniser)
    ensures Accepts(k, BitDeclText(n)) <==> k == BitDecl
  {
    var s := BitDeclText(n);
    assert s == DeclText("bit", n, "c") by { hide IntText; }
    assert "bit" + "[" == "bit[";
    assert |s| > 1 && s[0] == 'b';
    DeclIs("bit", "c", n);
    DeclIsNoStatement("bit", "c", n);
    NoComment(s);
    NoHeader(s);
    NoInclude(s);
    NoDecl("qubit[", s);
    hide MatchHeader, MatchInclude, MatchDecl, MatchMeasure, MatchGate, Literal, IntText, NatText, DeclText,
      BitDeclText;
  }

  lemma MeasureForm(i: nat, q: nat)
    ensures MeasureText(i, q)
         == "c" + ("[" + (NatText(i) + ("]" + (" " + ("=" + (" " + ("measure" + (" " +
              ("q" + ("[" + (NatText(q) + ("]" + ";"))))))))))))
  {
    NatTextFacts(i);
    NatTextFacts(q);
    hide NatText, IntText;
  }

  lemma MeasureBy(s: string, i: string, a: string, b: string, c: string, d: string, q: string)
    requires MatchRef(s) == Match(i, a) && Literal("=", Skip(Blank, a)) == Match("=", b)
    requires Literal("measure", Skip(Blank, b)) == Match("measure", c) && Many(Blank, c) == Match(" ", d)
    requires MatchRef(d) == Match(q, ";") && AtEnd(";")
    ensures MatchMeasure(s) == Some(q)
  {
    hide MatchRef, Skip, Literal, Many, AtEnd;
  }

  lemma MeasureIs(i: nat, q: nat)
    ensures MatchMeasure(MeasureText(i, q)) == Some(NatText(q))
    ensures MatchGate(MeasureText(i, q)) == None
  {
    var d := "q" + ("[" + (NatText(q) + ("]" + ";")));
    var c := "measure" + (" " + d);
    var a := " " + ("=" + (" " + c));
    var t := "[" + (NatText(i) + ("]" + a));
    MeasureForm(i, q);
    AtEndIs();
    assert All(Blank, " ") && Stops(Blank, "=" + (" " + c)) && Stops(Blank, c) && Stops(Blank, d);
    assert All(Word, "c") && All(Word, "q") && t != "" && t[0] == '[';
    hide *;
    RefIs("c", i, a);
    SkipIs(Blank, " ", "=" + (" " + c));
    LiteralIs("=", " " + c);
    SkipIs(Blank, " ", c);
    LiteralIs("measure", " " + d);
    ManyIs(Blank, " ", d);
    RefIs("q", q, ";");
    MeasureBy(MeasureText(i, q), NatText(i), a, " " + c, " " + d, d, NatText(q));
    NoGate("c", t);
  }

  lemma MeasureOnly(i: nat, q: nat, k: Recogniser)
    ensures Accepts(k, MeasureText(i, q)) <==> k == Measurement
  {
    var s := MeasureText(i, q);
    assert |s| > 1 && s[0] == 'c';
    MeasureIs(i, q);
    NoComment(s);
    NoHeader(s);
    NoInclude(s);
    NoDecl("bit[", s);
    NoDecl("qubit[", s);
    hide MatchHeader, MatchInclude, MatchDecl, MatchMeasure, MatchGate, Literal, MeasureText;
  }
}
