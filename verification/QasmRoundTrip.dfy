/** Whole programs: the round trip and the normal form. */
module QasmRoundTrip {
  import opened Prelude
  import opened Text
  import opened Numbers
  import opened Ir
  import opened Qasm
  import opened QasmLines
  import opened QasmLaws

  // ---------------------------------------------------------------- reading printed lines

  ghost predicate Clean(lines: seq<string>) {
    forall i :: 0 <= i < |lines| ==> OneLine(lines[i]) && Trim(lines[i])
  }

  lemma {:induction false} ReadLinesSplit<F>(
    fl: Floats<F>, target: string, acc: Gathered<F>, xs: seq<string>, ys: seq<string>)
    requires ReadLines(fl, target, acc, xs).Ok?
    ensures ReadLines(fl, target, acc, xs + ys) == ReadLines(fl, target, ReadLines(fl, target, acc, xs).value, ys)
    decreases |xs|
  {
    hide ReadLine, Strip;
    if xs == [] {
      assert xs + ys == ys;
    } else {
      assert (xs + ys)[0] == xs[0] && (xs + ys)[1..] == xs[1..] + ys;
      ReadLinesSplit(fl, target, ReadLine(fl, target, acc, Strip(xs[0])).value, xs[1..], ys);
    }
  }

  lemma ReadOne<F>(fl: Floats<F>, target: string, acc: Gathered<F>, line: string)
    requires Trim(line) && ReadLine(fl, target, acc, line).Ok?
    ensures ReadLines(fl, target, acc, [line]) == ReadLine(fl, target, acc, line)
  {
    hide ReadLine, Strip;
    StripTrim(line);
    assert [line][0] == line && [line][1..] == [];
    var next := ReadLine(fl, target, acc, line).value;
    assert ReadLines(fl, target, next, []) == Ok(next);
  }

  lemma ReadFirst<F>(
    fl: Floats<F>, target: string, acc: Gathered<F>, line: string, next: Gathered<F>, rest: seq<string>)
    requires Trim(line) && ReadLine(fl, target, acc, line) == Ok(next)
    ensures ReadLines(fl, target, acc, [line] + rest) == ReadLines(fl, target, next, rest)
  {
    hide ReadLine, Strip;
    StripTrim(line);
    assert ([line] + rest)[0] == line && ([line] + rest)[1..] == rest;
  }

  /** Only the recogniser `k` accepts the line. */
  ghost predicate Only(k: Recogniser, line: string) {
    line != "" && forall j: Recogniser :: Accepts(j, line) <==> j == k
  }

  lemma OnlyIgnored(line: string, k: Recogniser)
    requires Only(k, line)
    ensures Ignored(line) <==> k in {Comment, Header, Include, BitDecl}
  {
    hide Accepts;
  }

  lemma ReadIgnored<F>(fl: Floats<F>, target: string, acc: Gathered<F>, line: string, k: Recogniser)
    requires Only(k, line) && k in {Header, Include, BitDecl}
    ensures ReadLine(fl, target, acc, line) == Ok(acc)
  {
    OnlyIgnored(line, k);
    hide Accepts, Only, MatchDecl, MatchMeasure, MatchGate, GateFrom, NatValue, Ignored;
  }

  lemma ReadDecl<F>(fl: Floats<F>, target: string, acc: Gathered<F>, line: string, d: string)
    requires Only(QubitDecl, line) && acc.numQubits.None? && All(Digit, d) && MatchDecl("qubit[", line) == Some(d)
    ensures ReadLine(fl, target, acc, line) == Ok(acc.(numQubits := Some(NatValue(d))))
  {
    OnlyIgnored(line, QubitDecl);
    hide Accepts, Only, MatchDecl, MatchMeasure, MatchGate, GateFrom, NatValue, Ignored;
  }

  lemma NotOnly(line: string, k: Recogniser)
    requires Only(k, line) && (k == Measurement || k == GateCall)
    ensures MatchDecl("qubit[", line) == None && (k == GateCall ==> MatchMeasure(line) == None)
  {
    AcceptsMeans(line);
    assert !Accepts(QubitDecl, line);
    assert k == GateCall ==> !Accepts(Measurement, line);
    hide Accepts, MatchDecl, MatchMeasure;
  }

  lemma AcceptsMeans(line: string)
    ensures Accepts(QubitDecl, line) <==> MatchDecl("qubit[", line).Some?
    ensures Accepts(Measurement, line) <==> MatchMeasure(line).Some?
  {
    hide MatchDecl, MatchMeasure, MatchGate, MatchHeader, MatchInclude, Literal;
  }

  lemma ReadMeasure<F>(fl: Floats<F>, target: string, acc: Gathered<F>, line: string, q: string)
    requires Only(Measurement, line) && All(Digit, q) && MatchMeasure(line) == Some(q)
    ensures ReadLine(fl, target, acc, line) == Ok(acc.(measurements := acc.measurements + [NatValue(q)]))
  {
    OnlyIgnored(line, Measurement);
    NotOnly(line, Measurement);
    hide Accepts, Only, MatchDecl, MatchMeasure, MatchGate, GateFrom, NatValue, Ignored;
  }

  lemma ReadCall<F>(fl: Floats<F>, target: string, acc: Gathered<F>, line: string, op: GateOp<F>)
    requires Only(GateCall, line) && MatchGate(line).Some? && GateFrom(fl, MatchGate(line).value, target) == Ok(op)
    ensures ReadLine(fl, target, acc, line) == Ok(acc.(gates := acc.gates + [op]))
  {
    OnlyIgnored(line, GateCall);
    NotOnly(line, GateCall);
    hide Accepts, Only, MatchDecl, MatchMeasure, MatchGate, GateFrom, NatValue, Ignored;
  }

  lemma OnlyHeader()
    ensures Only(Header, HEADER) && Only(Include, INCLUDE)
  {
    FirstLines();
    hide Accepts;
    forall j: Recogniser ensures Accepts(j, HEADER) <==> j == Header { HeaderOnly(j); }
    forall j: Recogniser ensures Accepts(j, INCLUDE) <==> j == Include { IncludeOnly(j); }
  }

  lemma OnlyDecl(n: nat)
    ensures Only(QubitDecl, QubitDeclText(n)) && Only(BitDecl, BitDeclText(n))
  {
    assert QubitDeclText(n) != "" && BitDeclText(n) != "" by { hide IntText; }
    hide Accepts, QubitDeclText, BitDeclText;
    forall j: Recogniser ensures Accepts(j, QubitDeclText(n)) <==> j == QubitDecl { QubitDeclOnly(n, j); }
    forall j: Recogniser ensures Accepts(j, BitDeclText(n)) <==> j == BitDecl { BitDeclOnly(n, j); }
  }

  lemma OnlyMeasure(i: nat, q: nat)
    ensures Only(Measurement, MeasureText(i, q))
  {
    assert MeasureText(i, q) != "" by { hide IntText; }
    hide Accepts, MeasureText;
    forall j: Recogniser ensures Accepts(j, MeasureText(i, q)) <==> j == Measurement { MeasureOnly(i, q, j); }
  }

  lemma OnlyGate(line: string)
    requires GateLine(line)
    ensures Only(GateCall, line)
  {
    hide Accepts;
    forall j: Recogniser ensures Accepts(j, line) <==> j == GateCall { GateLineOnly(line, j); }
  }

  lemma HeaderReads<F>(fl: Floats<F>, target: string, acc: Gathered<F>)
    ensures ReadLine(fl, target, acc, HEADER) == Ok(acc) && ReadLine(fl, target, acc, INCLUDE) == Ok(acc)
  {
    hide *;
    OnlyHeader();
    ReadIgnored(fl, target, acc, HEADER, Header);
    ReadIgnored(fl, target, acc, INCLUDE, Include);
  }

  lemma FirstLines()
    ensures HEADER != "" && INCLUDE != "" && OneLine(HEADER) && Trim(HEADER) && OneLine(INCLUDE) && Trim(INCLUDE)
  {
  }

  lemma DeclsRead<F>(fl: Floats<F>, target: string, acc: Gathered<F>, n: nat, m: nat)
    requires acc.numQubits.None?
    ensures ReadLine(fl, target, acc, QubitDeclText(n)) == Ok(acc.(numQubits := Some(n)))
    ensures ReadLine(fl, target, acc.(numQubits := Some(n)), BitDeclText(m)) == Ok(acc.(numQubits := Some(n)))
  {
    hide *;
    OnlyDecl(n);
    OnlyDecl(m);
    QubitDeclOnly(n, QubitDecl);
    NatTextFacts(n);
    ReadDecl(fl, target, acc, QubitDeclText(n), NatText(n));
    ReadIgnored(fl, target, acc.(numQubits := Some(n)), BitDeclText(m), BitDecl);
  }

  lemma IntVisible(n: nat)
    ensures Visible(IntText(n))
  {
    NatTextFacts(n);
    hide NatText, IntText;
  }

  lemma DeclLines(n: nat)
    ensures OneLine(QubitDeclText(n)) && Trim(QubitDeclText(n))
    ensures OneLine(BitDeclText(n)) && Trim(BitDeclText(n))
  {
    IntVisible(n);
    hide IntText;
    VisibleLine(QubitDeclText(n));
    VisibleLine(BitDeclText(n));
  }

  lemma MeasureReads<F>(fl: Floats<F>, target: string, acc: Gathered<F>, i: nat, q: nat)
    ensures ReadLine(fl, target, acc, MeasureText(i, q)) == Ok(acc.(measurements := acc.measurements + [q]))
    ensures OneLine(MeasureText(i, q)) && Trim(MeasureText(i, q))
  {
    IntVisible(i);
    IntVisible(q);
    assert MeasureText(i, q) != "" && Visible(MeasureText(i, q)) by { hide IntText; }
    assert MeasureText(i, q)[0] == 'c' && MeasureText(i, q)[|MeasureText(i, q)| - 1] == ';' by { hide IntText; }
    hide *;
    VisibleLine(MeasureText(i, q));
    OnlyMeasure(i, q);
    MeasureIs(i, q);
    NatTextFacts(q);
    ReadMeasure(fl, target, acc, MeasureText(i, q), NatText(q));
  }

  lemma GateReads<F>(fl: Floats<F>, target: string, acc: Gathered<F>, op: GateOp<F>)
    requires fl.HalfPiSurvives() && WellShaped(op) && Nats(op.qubits)
    requires LegalGates(target).Some? && op.gate in LegalGates(target).value && PrintGate(fl, op, target).Some?
    ensures var line := PrintGate(fl, op, target).value;
            && ReadLine(fl, target, acc, line) == Ok(acc.(gates := acc.gates + [NormGate(fl, op)]))
            && OneLine(line) && Trim(line)
  {
    var line := PrintGate(fl, op, target).value;
    hide PrintGate, GateFrom, NormGate, MatchGate, ReadLine, LegalGates, Only;
    GateRoundTrip(fl, op, target);
    GateLineIsLine(fl, op, target);
    OnlyGate(line);
    ReadCall(fl, target, acc, line, NormGate(fl, op));
  }

  // ---------------------------------------------------------------- reading the parts of a program

  lemma ThreeRead<F>(fl: Floats<F>, target: string, start: Gathered<F>, next: Gathered<F>,
                     one: string, two: string, three: string, rest: seq<string>)
    requires Trim(one) && Trim(two) && Trim(three)
    requires ReadLine(fl, target, start, one) == Ok(start) && ReadLine(fl, target, start, two) == Ok(start)
    requires ReadLine(fl, target, start, three) == Ok(next)
    ensures ReadLines(fl, target, start, [one, two, three] + rest) == ReadLines(fl, target, next, rest)
  {
    hide *;
    ReadFirst(fl, target, start, one, start, [two] + ([three] + rest));
    ReadFirst(fl, target, start, two, start, [three] + rest);
    ReadFirst(fl, target, start, three, next, rest);
    assert [one, two, three] + rest == [one] + ([two] + ([three] + rest));
  }

  lemma PreambleReads<F>(fl: Floats<F>, ir: NativeGateIR<F>)
    requires Valid(ir)
    ensures ReadLines(fl, ir.target, Gathered(None, [], []), Preamble(ir)) == Ok(Gathered(Some(ir.numQubits), [], []))
  {
    var n, m := ir.numQubits, |ir.measurements|;
    var start: Gathered<F> := Gathered(None, [], []);
    var next: Gathered<F> := Gathered(Some(n), [], []);
    var bits := if ir.measurements == [] then [] else [BitDeclText(m)];
    assert Preamble(ir) == [HEADER, INCLUDE, QubitDeclText(n)] + bits by { hide QubitDeclText, BitDeclText; }
    hide *;
    FirstLines();
    DeclLines(n);
    HeaderReads(fl, ir.target, start);
    DeclsRead(fl, ir.target, start, n, m);
    BitsRead(fl, ir, next, bits);
    ThreeRead(fl, ir.target, start, next, HEADER, INCLUDE, QubitDeclText(n), bits);
  }

  lemma PreambleClean<F>(ir: NativeGateIR<F>)
    requires Valid(ir)
    ensures Clean(Preamble(ir)) && Preamble(ir) != []
  {
    FirstLines();
    DeclLines(ir.numQubits);
    DeclLines(|ir.measurements|);
    hide QubitDeclText, BitDeclText, OneLine, Trim;
  }

  lemma BitsRead<F>(fl: Floats<F>, ir: NativeGateIR<F>, acc: Gathered<F>, bits: seq<string>)
    requires Valid(ir) && acc == Gathered(Some(ir.numQubits), [], [])
    requires bits == if ir.measurements == [] then [] else [BitDeclText(|ir.measurements|)]
    ensures ReadLines(fl, ir.target, acc, bits) == Ok(acc)
  {
    hide ReadLine, BitDeclText, Trim, Strip;
    if bits != [] {
      DeclsRead(fl, ir.target, Gathered(None, [], []), ir.numQubits, |ir.measurements|);
      DeclLines(|ir.measurements|);
      ReadOne(fl, ir.target, acc, bits[0]);
      hide ReadLines;
    }
  }

  ghost predicate GoodGates<F>(gates: seq<GateOp<F>>, target: string) {
    && LegalGates(target).Some?
    && forall i :: 0 <= i < |gates| ==>
         WellShaped(gates[i]) && gates[i].gate in LegalGates(target).value && Nats(gates[i].qubits)
  }

  lemma {:induction false} GatesRead<F>(fl: Floats<F>, target: string, acc: Gathered<F>, gates: seq<GateOp<F>>)
    requires fl.HalfPiSurvives() && GoodGates(gates, target) && PrintGates(fl, gates, target).Some?
    ensures var lines := PrintGates(fl, gates, target).value;
            && ReadLines(fl, target, acc, lines) == Ok(acc.(gates := acc.gates + NormGates(fl, gates)))
            && Clean(lines)
    decreases |gates|
  {
    hide PrintGate, ReadLine, OneLine, Trim, Strip, NormGate, LegalGates;
    if gates == [] {
      assert acc.gates + NormGates(fl, gates) == acc.gates;
    } else {
      var k := |gates| - 1;
      var op := gates[k];
      var before := PrintGates(fl, gates[..k], target).value;
      var line := PrintGate(fl, op, target).value;
      GatesRead(fl, target, acc, gates[..k]);
      var mid := acc.(gates := acc.gates + NormGates(fl, gates[..k]));
      GateReads(fl, target, mid, op);
      ReadOne(fl, target, mid, line);
      hide ReadLines;
      ReadLinesSplit(fl, target, acc, before, [line]);
      assert NormGates(fl, gates) == NormGates(fl, gates[..k]) + [NormGate(fl, op)];
      assert mid.gates + [NormGate(fl, op)] == acc.gates + NormGates(fl, gates);
    }
  }

  lemma {:induction false} MeasuresRead<F>(fl: Floats<F>, target: string, acc: Gathered<F>, ms: seq<int>)
    requires Nats(ms)
    ensures ReadLines(fl, target, acc, MeasureTexts(ms)) == Ok(acc.(measurements := acc.measurements + ms))
    ensures Clean(MeasureTexts(ms))
    decreases |ms|
  {
    hide ReadLine, OneLine, Trim, Strip, MeasureText;
    if ms == [] {
      assert acc.measurements + ms == acc.measurements;
      assert MeasureTexts(ms) == [];
    } else {
      var k := |ms| - 1;
      MeasuresRead(fl, target, acc, ms[..k]);
      var mid := acc.(measurements := acc.measurements + ms[..k]);
      MeasureReads(fl, target, mid, k, ms[k]);
      ReadOne(fl, target, mid, MeasureText(k, ms[k]));
      hide ReadLines;
      assert MeasureTexts(ms) == MeasureTexts(ms[..k]) + [MeasureText(k, ms[k])];
      ReadLinesSplit(fl, target, acc, MeasureTexts(ms[..k]), [MeasureText(k, ms[k])]);
      assert mid.measurements + [ms[k]] == acc.measurements + ms;
    }
  }

  // ---------------------------------------------------------------- round trip

  lemma PartsRead<F>(fl: Floats<F>, target: string, s: Gathered<F>, a: Gathered<F>, b: Gathered<F>, c: Gathered<F>,
                     xs: seq<string>, ys: seq<string>, zs: seq<string>)
    requires ReadLines(fl, target, s, xs) == Ok(a) && ReadLines(fl, target, a, ys) == Ok(b)
             && ReadLines(fl, target, b, zs) == Ok(c)
    ensures ReadLines(fl, target, s, xs + ys + zs) == Ok(c)
  {
    hide *;
    ReadLinesSplit(fl, target, s, xs, ys);
    ReadLinesSplit(fl, target, s, xs + ys, zs);
  }

  lemma LinesRead<F>(fl: Floats<F>, ir: NativeGateIR<F>)
    requires fl.HalfPiSurvives() && Valid(ir) && PrintLines(fl, ir).Some?
    ensures var lines := PrintLines(fl, ir).value;
            && Clean(lines) && lines != []
            && ReadLines(fl, ir.target, Gathered(None, [], []), lines)
               == Ok(Gathered(Some(ir.numQubits), NormGates(fl, ir.gates), ir.measurements))
  {
    var target := ir.target;
    var start: Gathered<F> := Gathered(None, [], []);
    var a: Gathered<F> := Gathered(Some(ir.numQubits), [], []);
    hide ReadLines, PrintGates, Preamble, MeasureTexts, OneLine, Trim, LegalGates;
    assert GoodGates(ir.gates, target) && Nats(ir.measurements);
    hide GoodGates, Valid, NormGates;
    var b := a.(gates := [] + NormGates(fl, ir.gates));
    var c := b.(measurements := [] + ir.measurements);
    var gates := PrintGates(fl, ir.gates, target).value;
    PreambleReads(fl, ir);
    PreambleClean(ir);
    GatesRead(fl, target, a, ir.gates);
    MeasuresRead(fl, target, b, ir.measurements);
    PartsRead(fl, target, start, a, b, c, Preamble(ir), gates, MeasureTexts(ir.measurements));
    CleanConcat(Preamble(ir), gates, MeasureTexts(ir.measurements));
    assert [] + NormGates(fl, ir.gates) == NormGates(fl, ir.gates);
    assert [] + ir.measurements == ir.measurements;
    hide Clean;
  }

  lemma CleanConcat(xs: seq<string>, ys: seq<string>, zs: seq<string>)
    requires Clean(xs) && Clean(ys) && Clean(zs)
    ensures Clean(xs + ys + zs)
  {
    hide OneLine, Trim;
  }

  /** For every valid circuit that prints, parsing the printed text with the same
      target and metadata returns the circuit with each `id` duration zero and
      each other parameter rounded to fifteen significant digits. */
  lemma RoundTrip<F>(fl: Floats<F>, ir: NativeGateIR<F>)
    requires fl.HalfPiSurvives() && Valid(ir) && Print(fl, ir).Some?
    ensures Parse(fl, Print(fl, ir).value, ir.target, ir.metadata) == Ok(Norm(fl, ir))
  {
    var lines := PrintLines(fl, ir).value;
    LinesRead(fl, ir);
    NormIsValid(fl, ir);
    hide PrintLines, ReadLines, Valid, SplitLines, Strip, Join, OneLine, Trim, NormGates;
    LinesOfText(lines);
  }

  /** Every line of every printed program is accepted by exactly one recogniser. */
  lemma LinesAreUnambiguous<F>(fl: Floats<F>, ir: NativeGateIR<F>, i: nat) returns (k: Recogniser)
    requires Valid(ir) && PrintLines(fl, ir).Some? && i < |PrintLines(fl, ir).value|
    ensures Only(k, PrintLines(fl, ir).value[i])
  {
    var lines := PrintLines(fl, ir).value;
    var line := lines[i];
    var pre, n := |Preamble(ir)|, |ir.gates|;
    PrintedGateAt(fl, ir.gates, ir.target);
    if i < pre {
      assert line == Preamble(ir)[i];
      hide Only, PrintLines, PrintGates;
      k := if i == 0 then Header else if i == 1 then Include else if i == 2 then QubitDecl else BitDecl;
      OnlyHeader();
      OnlyDecl(ir.numQubits);
      OnlyDecl(|ir.measurements|);
    } else if i < pre + n {
      var op := ir.gates[i - pre];
      assert line == PrintGate(fl, op, ir.target).value;
      assert WellShaped(op) && Nats(op.qubits);
      hide Only, PrintLines, PrintGates, PrintGate, Preamble, GateLine;
      k := GateCall;
      PrintedIsGateLine(fl, op, ir.target);
      OnlyGate(line);
    } else {
      var q := i - pre - n;
      assert line == MeasureText(q, ir.measurements[q]);
      hide Only, PrintLines, PrintGates, PrintGate, Preamble, MeasureText;
      k := Measurement;
      OnlyMeasure(q, ir.measurements[q]);
    }
  }

  lemma {:induction false} PrintedGateAt<F>(fl: Floats<F>, gates: seq<GateOp<F>>, target: string)
    requires PrintGates(fl, gates, target).Some?
    ensures |PrintGates(fl, gates, target).value| == |gates|
    ensures forall i :: 0 <= i < |gates| ==>
              PrintGate(fl, gates[i], target) == Some(PrintGates(fl, gates, target).value[i])
    decreases |gates|
  {
    hide PrintGate;
    if gates != [] { PrintedGateAt(fl, gates[..|gates| - 1], target); }
  }

  // ---------------------------------------------------------------- normal form

  /** The gate has a text for the target. */
  ghost predicate AllPrintable<F>(gates: seq<GateOp<F>>, target: string) {
    forall i :: 0 <= i < |gates| ==> PrintableGate(gates[i].gate, target)
  }

  lemma GateIsPrintable<F>(fl: Floats<F>, g: GateText, target: string)
    requires forall i :: 0 <= i < |g.refs| ==> All(Digit, g.refs[i])
    ensures var op := GateFrom(fl, g, target); op.Ok? ==> PrintableGate(op.value.gate, target)
  {
    hide ParamsFrom, QubitsFrom;
  }

  lemma LineIsPrintable<F>(fl: Floats<F>, target: string, acc: Gathered<F>, line: string)
    requires AllPrintable(acc.gates, target) && ReadLine(fl, target, acc, line).Ok?
    ensures AllPrintable(ReadLine(fl, target, acc, line).value.gates, target)
  {
    hide MatchDecl, MatchMeasure, MatchGate, GateFrom, NatValue, Ignored, PrintableGate;
    if MatchGate(line).Some? { GateIsPrintable(fl, MatchGate(line).value, target); }
  }

  lemma {:induction false} ReadIsPrintable<F>(fl: Floats<F>, target: string, acc: Gathered<F>, lines: seq<string>)
    requires AllPrintable(acc.gates, target) && ReadLines(fl, target, acc, lines).Ok?
    ensures AllPrintable(ReadLines(fl, target, acc, lines).value.gates, target)
    decreases |lines|
  {
    hide ReadLine, Strip, AllPrintable;
    if lines != [] {
      var line := Strip(lines[0]);
      LineIsPrintable(fl, target, acc, line);
      ReadIsPrintable(fl, target, ReadLine(fl, target, acc, line).value, lines[1..]);
    }
  }

  /** Whatever text is accepted, for whatever target, the result is valid and prints. */
  lemma ParsedPrints<F>(fl: Floats<F>, text: string, target: string, metadata: Metadata)
    requires Parse(fl, text, target, metadata).Ok?
    ensures var ir := Parse(fl, text, target, metadata).value;
            Valid(ir) && ir.target == target && ir.metadata == metadata && Print(fl, ir).Some?
  {
    var lines := SplitLines(Strip(text));
    var ir := Parse(fl, text, target, metadata).value;
    ReadIsPrintable(fl, target, Gathered(None, [], []), lines);
    hide ReadLines, SplitLines, Strip;
    PrintsGates(fl, ir.gates, target, ir.numQubits);
    hide PrintGates, Join, LegalGates, PrintableGate;
  }

  /** A parameter that is printed keeps its digits on a second trip. */
  predicate SteadyGate<F>(fl: Floats<F>, op: GateOp<F>) {
    op.gate in {RX, RY, RZ, VirtualZ} && |op.params| == 1 ==> fl.Steady(op.params[0])
  }

  predicate AllSteady<F>(fl: Floats<F>, gates: seq<GateOp<F>>) {
    forall i :: 0 <= i < |gates| ==> SteadyGate(fl, gates[i])
  }

  /** The text of a number determines it. */
  lemma FormatIsInjective(m: Number, n: Number)
    requires Canonical(m) && Canonical(n) && Format(m) == Format(n)
    ensures m == n
  {
    FormatRoundTrip(m);
    FormatRoundTrip(n);
    hide Format, ReadFloat;
  }

  lemma ArgsCancel(name: string, a: string, b: string, qubits: seq<int>)
    requires Parametrised(name, a, qubits) == Parametrised(name, b, qubits)
    ensures a == b
  {
    var tail := ")" + (" " + (OperandsText(qubits) + ";"));
    ParametrisedText(name, a, qubits);
    ParametrisedText(name, b, qubits);
    hide Parametrised, OperandsText;
    var s, t := name + ("(" + (a + tail)), name + ("(" + (b + tail));
    assert s == t && |a| == |b|;
    assert a == s[|name| + 1..|name| + 1 + |a|];
    assert b == t[|name| + 1..|name| + 1 + |b|];
  }

  /** A gate prints the same before and after a trip through text exactly when its parameter is steady. */
  lemma GateSteady<F>(fl: Floats<F>, op: GateOp<F>, target: string)
    requires WellShaped(op) && PrintGate(fl, op, target).Some?
    ensures PrintGate(fl, NormGate(fl, op), target).Some?
    ensures PrintGate(fl, NormGate(fl, op), target) == PrintGate(fl, op, target)
            <==> SteadyGate(fl, op)
  {
    var op' := NormGate(fl, op);
    if op.gate in {RX, RY, RZ, VirtualZ} {
      var x, y := op.params[0], op'.params[0];
      assert y == fl.Rounded(x);
      JoinOne(fl, op.params);
      JoinOne(fl, op'.params);
      if ParamText(fl, x) == ParamText(fl, y) { FormatIsInjective(fl.round15(x), fl.round15(y)); }
      forall name | Parametrised(name, ParamText(fl, x), op.qubits) == Parametrised(name, ParamText(fl, y), op.qubits)
        ensures ParamText(fl, x) == ParamText(fl, y)
      {
        ArgsCancel(name, ParamText(fl, x), ParamText(fl, y), op.qubits);
      }
      hide Parametrised, Plainly, Format, Join, ParamTexts;
    } else {
      hide Parametrised, Plainly, Format, Join, ParamTexts;
    }
  }

  lemma {:induction false} GatesSteady<F>(fl: Floats<F>, gates: seq<GateOp<F>>, target: string)
    requires PrintGates(fl, gates, target).Some? && forall i :: 0 <= i < |gates| ==> WellShaped(gates[i])
    ensures PrintGates(fl, NormGates(fl, gates), target).Some?
    ensures PrintGates(fl, NormGates(fl, gates), target) == PrintGates(fl, gates, target) <==> AllSteady(fl, gates)
    decreases |gates|
  {
    hide PrintGate, NormGate, SteadyGate;
    if gates == [] {
      assert NormGates(fl, gates) == gates;
    } else {
      var k := |gates| - 1;
      var norm := NormGates(fl, gates);
      assert norm[..k] == NormGates(fl, gates[..k]);
      GatesSteady(fl, gates[..k], target);
      GateSteady(fl, gates[k], target);
      assert AllSteady(fl, gates) <==> AllSteady(fl, gates[..k]) && SteadyGate(fl, gates[k]);
      var x, y := PrintGates(fl, gates[..k], target).value, PrintGates(fl, norm[..k], target).value;
      if PrintGates(fl, norm, target) == PrintGates(fl, gates, target) {
        LastCancels(x, PrintGate(fl, gates[k], target).value, y, PrintGate(fl, norm[k], target).value);
      }
      hide AllSteady;
    }
  }

  lemma LastCancels(xs: seq<string>, x: string, ys: seq<string>, y: string)
    requires xs + [x] == ys + [y]
    ensures xs == ys && x == y
  {
    var s, t := xs + [x], ys + [y];
    assert s[..|s| - 1] == xs && t[..|t| - 1] == ys;
    assert s[|s| - 1] == x && t[|t| - 1] == y;
  }

  /** Equal texts come from equal lines. */
  lemma TextDeterminesLines(xs: seq<string>, ys: seq<string>)
    requires Clean(xs) && Clean(ys) && xs != [] && ys != [] && Join(xs, "\n") + "\n" == Join(ys, "\n") + "\n"
    ensures xs == ys
  {
    hide SplitLines, Strip, Join, OneLine, Trim;
    LinesOfText(xs);
    LinesOfText(ys);
  }

  lemma MiddleCancels(p: seq<string>, x: seq<string>, y: seq<string>, q: seq<string>)
    requires p + x + q == p + y + q
    ensures x == y
  {
    var s, t := p + x + q, p + y + q;
    assert |x| == |y|;
    assert x == s[|p|..|p| + |x|] && y == t[|p|..|p| + |y|];
  }

  /** Printing again what was read back gives the identical text if and only if
      every printed parameter keeps its fifteen digits through the conversion to
      a double and back. */
  lemma NormalFormIsExact<F>(fl: Floats<F>, ir: NativeGateIR<F>)
    requires fl.HalfPiSurvives() && Valid(ir) && Print(fl, ir).Some?
    ensures Print(fl, Norm(fl, ir)).Some?
    ensures Print(fl, Norm(fl, ir)) == Print(fl, ir) <==> AllSteady(fl, ir.gates)
  {
    var ir' := Norm(fl, ir);
    assert forall i :: 0 <= i < |ir.gates| ==> WellShaped(ir.gates[i]) by { hide LegalGates; }
    GatesSteady(fl, ir.gates, ir.target);
    NormIsValid(fl, ir);
    assert Preamble(ir') == Preamble(ir);
    hide PrintGates, Preamble, MeasureTexts, NormGates, AllSteady, Join, Clean, Valid;
    LinesRead(fl, ir);
    LinesRead(fl, ir');
    var p, q := Preamble(ir), MeasureTexts(ir.measurements);
    var x, y := PrintGates(fl, ir.gates, ir.target).value, PrintGates(fl, ir'.gates, ir.target).value;
    if Print(fl, ir') == Print(fl, ir) {
      TextDeterminesLines(p + y + q, p + x + q);
      MiddleCancels(p, y, x, q);
    }
  }

  /** Parse-then-print as a normaliser: for every accepted text printing succeeds,
      and parsing and printing that text once more yields the identical text if
      and only if the printed parameters are steady. */
  lemma ParseThenPrintIsIdempotent<F>(fl: Floats<F>, text: string, target: string, metadata: Metadata)
    requires fl.HalfPiSurvives() && Parse(fl, text, target, metadata).Ok?
    ensures var ir := Parse(fl, text, target, metadata).value;
            && Print(fl, ir).Some?
            && Parse(fl, Print(fl, ir).value, target, metadata).Ok?
            && (Print(fl, Parse(fl, Print(fl, ir).value, target, metadata).value) == Print(fl, ir)
                <==> AllSteady(fl, ir.gates))
  {
    var ir := Parse(fl, text, target, metadata).value;
    hide Parse, Print, Valid, Norm, AllSteady;
    ParsedPrints(fl, text, target, metadata);
    RoundTrip(fl, ir);
    NormalFormIsExact(fl, ir);
  }

  predicate OverflowingGate<F>(fl: Floats<F>, op: GateOp<F>) {
    op.gate in {RX, RY, RZ, VirtualZ} && |op.params| == 1 && fl.Overflows(op.params[0])
  }

  ghost predicate NoOverflow<F>(fl: Floats<F>, gates: seq<GateOp<F>>) {
    forall i :: 0 <= i < |gates| ==> !OverflowingGate(fl, gates[i])
  }

  lemma SteadyUnlessOverflow<F(!new)>(fl: Floats<F>, gates: seq<GateOp<F>>)
    requires FifteenDigits(fl)
    ensures AllSteady(fl, gates) <==> NoOverflow(fl, gates)
  {
    forall i | 0 <= i < |gates| ensures SteadyGate(fl, gates[i]) <==> !OverflowingGate(fl, gates[i]) {
      if |gates[i].params| == 1 {
        assert fl.Overflows(gates[i].params[0]) || fl.Steady(gates[i].params[0]);
      }
    }
  }

  /** By the law of doubles, a valid circuit prints the identical text after a trip
      through text if and only if no printed parameter overflows when rounded. */
  lemma NormalFormFailsOnlyByOverflow<F(!new)>(fl: Floats<F>, ir: NativeGateIR<F>)
    requires FifteenDigits(fl) && fl.HalfPiSurvives() && Valid(ir) && Print(fl, ir).Some?
    ensures Print(fl, Norm(fl, ir)) == Print(fl, ir) <==> NoOverflow(fl, ir.gates)
  {
    hide Print, Valid, Norm, AllSteady, NoOverflow, FifteenDigits;
    NormalFormIsExact(fl, ir);
    SteadyUnlessOverflow(fl, ir.gates);
  }

  /** The same for every accepted text: parse-then-print repeats itself if and only
      if no printed parameter overflows when rounded. */
  lemma ParseThenPrintFailsOnlyByOverflow<F(!new)>(fl: Floats<F>, text: string, target: string, metadata: Metadata)
    requires FifteenDigits(fl) && fl.HalfPiSurvives() && Parse(fl, text, target, metadata).Ok?
    ensures var ir := Parse(fl, text, target, metadata).value;
            && Print(fl, ir).Some?
            && Parse(fl, Print(fl, ir).value, target, metadata).Ok?
            && (Print(fl, Parse(fl, Print(fl, ir).value, target, metadata).value) == Print(fl, ir)
                <==> NoOverflow(fl, ir.gates))
  {
    hide Parse, Print, AllSteady, NoOverflow, FifteenDigits;
    ParseThenPrintIsIdempotent(fl, text, target, metadata);
    SteadyUnlessOverflow(fl, Parse(fl, text, target, metadata).value.gates);
  }
}
