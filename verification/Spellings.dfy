/** Spacing does not matter: statements written with any blanks are read as they are printed. */
module Spellings {
  import opened Prelude
  import opened Text
  import opened Numbers
  import opened Ir
  import opened Qasm
  import opened QasmLines
  import opened Patterns
  import opened Recognised
  import opened Meaning

  /** One or more characters of the class. */
  ghost predicate Run(k: Class, s: string) {
    s != "" && All(k, s)
  }

  // ---------------------------------------------------------------- pieces

  lemma EndSpelled(e: string, rest: string)
    requires All(Blank, e)
    ensures AtEnd(e + (";" + rest))
  {
    SkipIs(Blank, e, ";" + rest);
    LiteralIs(";", rest);
    hide Skip, Literal;
  }

  /** `word[index]` in front of anything. */
  lemma RefSpelled(w: string, d: string, rest: string)
    requires Run(Word, w) && Run(Digit, d)
    ensures MatchRef(w + ("[" + (d + ("]" + rest)))) == Match(d, rest)
    ensures MatchIndex(d + ("]" + rest)) == Match(d, rest)
  {
    ManyIs(Digit, d, "]" + rest);
    LiteralIs("]", rest);
    LiteralIs("[", d + ("]" + rest));
    ManyIs(Word, w, "[" + (d + ("]" + rest)));
    hide Many, Literal;
  }

  // ---------------------------------------------------------------- lines that declare

  lemma HeaderSpelled(b: string, v: string, e: string, rest: string)
    requires Run(Blank, b) && Run(Version, v) && All(Blank, e)
    ensures MatchHeader("OPENQASM" + (b + (v + (e + (";" + rest)))))
  {
    var end := e + (";" + rest);
    EndSpelled(e, rest);
    assert Stops(Version, end) && Stops(Blank, v + end);
    ManyIs(Version, v, end);
    ManyIs(Blank, b, v + end);
    LiteralIs("OPENQASM", b + (v + end));
    hide Many, Literal, AtEnd;
  }

  lemma IncludeSpelled(b: string, file: string, e: string, rest: string)
    requires Run(Blank, b) && Run(NotQuote, file) && All(Blank, e)
    ensures MatchInclude("include" + (b + ("\"" + (file + ("\"" + (e + (";" + rest)))))))
  {
    var end := e + (";" + rest);
    EndSpelled(e, rest);
    LiteralIs("\"", end);
    ManyIs(NotQuote, file, "\"" + end);
    LiteralIs("\"", file + ("\"" + end));
    ManyIs(Blank, b, "\"" + (file + ("\"" + end)));
    LiteralIs("include", b + ("\"" + (file + ("\"" + end))));
    hide Many, Literal, AtEnd;
  }

  lemma DeclSpelled(head: string, d: string, b: string, reg: string, e: string, rest: string)
    requires Run(Digit, d) && Run(Blank, b) && Run(Word, reg) && All(Blank, e)
    ensures MatchDecl(head, head + (d + ("]" + (b + (reg + (e + (";" + rest))))))) == Some(d)
  {
    var end := e + (";" + rest);
    EndSpelled(e, rest);
    assert Stops(Word, end) && Stops(Blank, reg + end);
    ManyIs(Word, reg, end);
    ManyIs(Blank, b, reg + end);
    RefSpelled("q", d, b + (reg + end));
    LiteralIs(head, d + ("]" + (b + (reg + end))));
    hide Many, Literal, AtEnd, MatchIndex;
  }

  lemma MeasureSpelled(
    w: string, i: string, b1: string, b2: string, b3: string, r: string, q: string, e: string, rest: string)
    requires Run(Word, w) && Run(Digit, i) && All(Blank, b1) && All(Blank, b2) && Run(Blank, b3)
    requires Run(Word, r) && Run(Digit, q) && All(Blank, e)
    ensures MatchMeasure(
              w + ("[" + (i + ("]" + (b1 + ("=" + (b2 + ("measure" + (b3
              + (r + ("[" + (q + ("]" + (e + (";" + rest)))))))))))))))
            == Some(q)
  {
    hide *;
    var end := e + (";" + rest);
    var ref := r + ("[" + (q + ("]" + end)));
    var right := "measure" + (b3 + ref);
    EndSpelled(e, rest);
    RefSpelled(r, q, end);
    RefSpelled(w, i, b1 + ("=" + (b2 + right)));
    RunIs(Blank, b3);
    WordStarts(r, "[" + (q + ("]" + end)));
    LettersStart(b3 + ref, b2 + right);
    ManyIs(Blank, b3, ref);
    LiteralIs("measure", b3 + ref);
    SkipIs(Blank, b2, right);
    LiteralIs("=", b2 + right);
    SkipIs(Blank, b1, "=" + (b2 + right));
    MeasuredBy(right, b3 + ref, ref, q, end);
    AssignedBy(b1 + ("=" + (b2 + right)), b2 + right, right, q);
    MeasureParts(w + ("[" + (i + ("]" + (b1 + ("=" + (b2 + right)))))));
  }

  lemma LettersStart(x: string, y: string)
    ensures Stops(Blank, "measure" + x) && Stops(Blank, "=" + y)
  {
  }

  lemma MeasuredBy(s: string, c: string, d: string, q: string, e: string)
    requires Literal("measure", s) == Match("measure", c) && Many(Blank, c).Match? && Many(Blank, c).rest == d
    requires MatchRef(d) == Match(q, e) && AtEnd(e)
    ensures Measured(s) == Some(q)
  {
    hide Literal, Many, MatchRef, AtEnd;
  }

  lemma AssignedBy(s: string, b: string, right: string, q: string)
    requires Literal("=", Skip(Blank, s)) == Match("=", b) && Skip(Blank, b) == right && Measured(right) == Some(q)
    ensures Assigned(s) == Some(q)
  {
    hide Literal, Skip, Measured;
  }

  // ---------------------------------------------------------------- gates

  /** One more operand with the blanks around its comma. */
  datatype Operand = Operand(before: string, after: string, reg: string, index: string)

  ghost predicate WellSpaced(ops: seq<Operand>) {
    forall i :: 0 <= i < |ops| ==>
      All(Blank, ops[i].before) && All(Blank, ops[i].after) && Run(Word, ops[i].reg) && Run(Digit, ops[i].index)
  }

  function SpacedTail(ops: seq<Operand>, end: string): string
    decreases |ops|
  {
    if ops == [] then end
    else
      ops[0].before
      + ("," + (ops[0].after + (ops[0].reg + ("[" + (ops[0].index + ("]" + SpacedTail(ops[1..], end)))))))
  }

  function Indices(ops: seq<Operand>): (r: seq<string>)
    ensures |r| == |ops| && forall i :: 0 <= i < |r| ==> r[i] == ops[i].index
  {
    seq(|ops|, i requires 0 <= i < |ops| => ops[i].index)
  }

  lemma WordStarts(w: string, x: string)
    requires Run(Word, w)
    ensures Stops(Blank, w + x)
  {
    assert (w + x)[0] == w[0];
  }

  lemma CommaStarts(x: string)
    ensures Stops(Blank, "," + x)
  {
  }

  /** One more operand is taken, whatever blanks surround its comma. */
  lemma OperandSpelled(o: Operand, more: string)
    requires All(Blank, o.before) && All(Blank, o.after) && Run(Word, o.reg) && Run(Digit, o.index)
    ensures var s := o.before + ("," + (o.after + (o.reg + ("[" + (o.index + ("]" + more))))));
            MoreRefs(s) == ([o.index] + MoreRefs(more).0, MoreRefs(more).1)
  {
    hide *;
    var ref := o.reg + ("[" + (o.index + ("]" + more)));
    RefSpelled(o.reg, o.index, more);
    WordStarts(o.reg, "[" + (o.index + ("]" + more)));
    CommaStarts(o.after + ref);
    SkipIs(Blank, o.after, ref);
    LiteralIs(",", o.after + ref);
    SkipIs(Blank, o.before, "," + (o.after + ref));
    MoreBy(o.before + ("," + (o.after + ref)), o.after + ref, o.index, more);
  }

  lemma {:induction false} TailSpelled(ops: seq<Operand>, e: string, rest: string)
    requires WellSpaced(ops) && All(Blank, e)
    ensures MoreRefs(SpacedTail(ops, e + (";" + rest))) == (Indices(ops), e + (";" + rest))
    decreases |ops|
  {
    hide MoreRefs, AtEnd;
    if ops == [] {
      EndSpelled(e, rest);
      NotBoth(e + (";" + rest));
    } else {
      TailSpelled(ops[1..], e, rest);
      OperandSpelled(ops[0], SpacedTail(ops[1..], e + (";" + rest)));
      assert Indices(ops) == [ops[0].index] + Indices(ops[1..]);
    }
  }

  /** The arguments in brackets, or nothing. */
  function ArgsText(args: Option<string>): string {
    if args.Some? then "(" + (args.value + ")") else ""
  }

  lemma OperandsBy(b: string, ref: string, d: string, tail: string, refs: seq<string>, end: string)
    requires Many(Blank, b + ref) == Match(b, ref) && MatchRef(ref) == Match(d, tail)
    requires MoreRefs(tail) == (refs, end) && AtEnd(end)
    ensures Operands(b + ref) == Some([d] + refs)
  {
    hide Many, AtEnd, MatchRef, MoreRefs;
  }

  lemma ArgsSpelled(args: Option<string>, c: string)
    requires args.Some? ==> All(NotClose, args.value)
    requires Operands(c).Some?
    ensures MatchArgs(ArgsText(args) + c) == Some((args, c))
  {
    hide MatchArgs, Operands;
    if args.Some? {
      assert ArgsText(args) + c == "(" + (args.value + (")" + c));
      ArgsMatch(args.value, c);
    } else {
      assert ArgsText(args) + c == c;
      BlankNoArgs(c);
    }
  }

  lemma NameEnds(args: Option<string>, b: string, ref: string)
    requires Run(Blank, b)
    ensures Stops(Word, ArgsText(args) + (b + ref))
  {
    assert (b + ref)[0] == b[0];
    assert args.None? ==> ArgsText(args) + (b + ref) == b + ref;
  }

  lemma GateBuilt(s: string, name: string, a: string, args: Option<string>, c: string, refs: seq<string>)
    requires Many(Word, s) == Match(name, a) && MatchArgs(a) == Some((args, c)) && Operands(c) == Some(refs)
    ensures MatchGate(s) == Some(GateText(name, args, refs))
  {
    GateParts(s);
    hide Many, MatchArgs, Operands, MatchGate;
  }

  lemma GateSpelled(
    name: string, args: Option<string>, b: string, reg: string, d: string, ops: seq<Operand>, e: string, rest: string)
    requires Run(Word, name) && (args.Some? ==> All(NotClose, args.value)) && Run(Blank, b)
    requires Run(Word, reg) && Run(Digit, d) && WellSpaced(ops) && All(Blank, e)
    ensures MatchGate(name + (ArgsText(args) + (b + (reg + ("[" + (d + ("]" + SpacedTail(ops, e + (";" + rest)))))))))
         == Some(GateText(name, args, [d] + Indices(ops)))
  {
    hide *;
    var tail := SpacedTail(ops, e + (";" + rest));
    var ref := reg + ("[" + (d + ("]" + tail)));
    var a := ArgsText(args) + (b + ref);
    TailSpelled(ops, e, rest);
    EndSpelled(e, rest);
    RefSpelled(reg, d, tail);
    WordStarts(reg, "[" + (d + ("]" + tail)));
    RunIs(Blank, b);
    RunIs(Word, name);
    ManyIs(Blank, b, ref);
    OperandsBy(b, ref, d, tail, Indices(ops), e + (";" + rest));
    ArgsSpelled(args, b + ref);
    NameEnds(args, b, ref);
    ManyIs(Word, name, a);
    GateBuilt(name + a, name, a, args, b + ref, [d] + Indices(ops));
  }

  lemma RunIs(k: Class, s: string)
    requires Run(k, s)
    ensures s != "" && All(k, s)
  {
  }

  // ---------------------------------------------------------------- read as they are printed

  /** However it is spaced, a gate call is read as its printed form is. */
  lemma SpacedGateIsRead<F>(
    fl: Floats<F>, target: string, acc: Gathered<F>, name: string, args: Option<string>, b: string, reg: string,
    ops: seq<Operand>, e: string, rest: string, qubits: seq<int>)
    requires Run(Word, name) && (args.Some? ==> All(NotClose, args.value)) && Run(Blank, b)
    requires Run(Word, reg) && WellSpaced(ops) && All(Blank, e)
    requires GateName(name) && qubits != [] && Nats(qubits) && [NatText(qubits[0])] + Indices(ops) == Refs(qubits)
    ensures ReadLine(fl, target, acc,
                     name + (ArgsText(args) + (b + (reg + ("[" + (NatText(qubits[0]) + ("]"
                     + SpacedTail(ops, e + (";" + rest)))))))))
         == ReadLine(fl, target, acc,
                     if args.Some? then Parametrised(name, args.value, qubits) else Plainly(name, qubits))
  {
    assert qubits[0] >= 0;
    hide *;
    var d := NatText(qubits[0]);
    var s := name + (ArgsText(args) + (b + (reg + ("[" + (d + ("]" + SpacedTail(ops, e + (";" + rest))))))));
    DigitsRun(qubits[0]);
    GateSpelled(name, args, b, reg, d, ops, e, rest);
    if args.Some? { ParametrisedMatches(name, args.value, qubits); } else { PlainMatches(name, qubits); }
    SameCall(fl, target, acc, s,
             if args.Some? then Parametrised(name, args.value, qubits) else Plainly(name, qubits));
  }

  lemma DigitsRun(n: nat)
    ensures Run(Digit, NatText(n))
  {
    NatTextFacts(n);
  }

  /** Two lines that are the same gate call are read alike. */
  lemma SameCall<F>(fl: Floats<F>, target: string, acc: Gathered<F>, s: string, s': string)
    requires MatchGate(s).Some? && MatchGate(s') == MatchGate(s)
    ensures ReadLine(fl, target, acc, s) == ReadLine(fl, target, acc, s')
  {
    OneKind(s);
    OneKind(s');
    hide Ignored, MatchDecl, MatchMeasure, MatchGate, GateFrom, NatValue;
  }

  /** However it is spaced, a measurement is read as its printed form is. */
  lemma SpacedMeasureIsRead<F>(
    fl: Floats<F>, target: string, acc: Gathered<F>, w: string, i: nat, b1: string, b2: string, b3: string, r: string,
    q: nat, e: string, rest: string)
    requires Run(Word, w) && All(Blank, b1) && All(Blank, b2) && Run(Blank, b3) && Run(Word, r) && All(Blank, e)
    ensures ReadLine(fl, target, acc,
                     w + ("[" + (NatText(i) + ("]" + (b1 + ("=" + (b2 + ("measure" + (b3
                     + (r + ("[" + (NatText(q) + ("]" + (e + (";" + rest)))))))))))))))
         == Ok(acc.(measurements := acc.measurements + [q]))
  {
    DigitsRun(i);
    DigitsRun(q);
    NatTextFacts(q);
    MeasureSpelled(w, NatText(i), b1, b2, b3, r, NatText(q), e, rest);
    var s := w + ("[" + (NatText(i) + ("]" + (b1 + ("=" + (b2 + ("measure" + (b3
             + (r + ("[" + (NatText(q) + ("]" + (e + (";" + rest))))))))))))));
    OneKind(s);
    hide Ignored, MatchDecl, MatchMeasure, MatchGate, GateFrom, NatValue, NatText;
  }

  /** However they are spaced, and whatever the version or the file, header and include add nothing. */
  lemma SpacedPreambleIsRead<F>(
    fl: Floats<F>, target: string, acc: Gathered<F>, b: string, v: string, file: string, e: string, rest: string)
    requires Run(Blank, b) && Run(Version, v) && Run(NotQuote, file) && All(Blank, e)
    ensures ReadLine(fl, target, acc, "OPENQASM" + (b + (v + (e + (";" + rest))))) == Ok(acc)
    ensures ReadLine(fl, target, acc, "include" + (b + ("\"" + (file + ("\"" + (e + (";" + rest))))))) == Ok(acc)
  {
    HeaderSpelled(b, v, e, rest);
    IncludeSpelled(b, file, e, rest);
    hide MatchHeader, MatchInclude, MatchDecl, MatchMeasure, MatchGate, GateFrom, NatValue, Literal;
  }

  /** However they are spaced, declarations declare: qubits once, bits without effect. */
  lemma SpacedDeclarationIsRead<F>(
    fl: Floats<F>, target: string, acc: Gathered<F>, n: nat, b: string, reg: string, e: string, rest: string)
    requires Run(Blank, b) && Run(Word, reg) && All(Blank, e)
    ensures ReadLine(fl, target, acc, "qubit[" + (NatText(n) + ("]" + (b + (reg + (e + (";" + rest)))))))
         == if acc.numQubits.Some? then ConversionError else Ok(acc.(numQubits := Some(n)))
    ensures ReadLine(fl, target, acc, "bit[" + (NatText(n) + ("]" + (b + (reg + (e + (";" + rest))))))) == Ok(acc)
  {
    DigitsRun(n);
    NatTextFacts(n);
    DeclSpelled("qubit[", NatText(n), b, reg, e, rest);
    DeclSpelled("bit[", NatText(n), b, reg, e, rest);
    OneKind("qubit[" + (NatText(n) + ("]" + (b + (reg + (e + (";" + rest)))))));
    AcceptsMeans("bit[" + (NatText(n) + ("]" + (b + (reg + (e + (";" + rest)))))));
    hide Accepts, MatchDecl, MatchMeasure, MatchGate, GateFrom, NatValue, NatText;
  }
}
