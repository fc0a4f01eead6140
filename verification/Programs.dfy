/** The meaning of a whole text: which texts are accepted, and as which circuit. */
module Programs {
  import opened Prelude
  import opened Text
  import opened Numbers
  import opened Ir
  import opened Qasm
  import opened Meaning
  import opened Reading

  // ---------------------------------------------------------------- what a program must be

  /** The lines of a text without the blanks around them. */
  function Lines(text: string): (r: seq<string>)
    ensures |r| == |SplitLines(text)|
    ensures forall i :: 0 <= i < |r| ==> r[i] == Strip(SplitLines(text)[i])
  {
    seq(|SplitLines(text)|, i requires 0 <= i < |SplitLines(text)| => Strip(SplitLines(text)[i]))
  }

  function Declared(sts: seq<Statement>): seq<nat>
    decreases |sts|
  {
    if sts == [] then [] else (if sts[0].Declares? then [sts[0].n] else []) + Declared(sts[1..])
  }

  function Measured(sts: seq<Statement>): seq<int>
    decreases |sts|
  {
    if sts == [] then [] else (if sts[0].Measures? then [sts[0].q] else []) + Measured(sts[1..])
  }

  function Called(sts: seq<Statement>): seq<GateText>
    decreases |sts|
  {
    if sts == [] then [] else (if sts[0].Calls? then [sts[0].g] else []) + Called(sts[1..])
  }

  /** The gate an OpenQASM name stands for, target by target. */
  predicate Named(target: string, name: string, g: Gate) {
    || (target == "cz" && (name, g) in {("rx", RX), ("ry", RY), ("rz", RZ), ("cz", CZ), ("id", ID)})
    || (target == "cnot" && (name, g) in {("sx", X90), ("ry", YMinus90), ("rz", VirtualZ), ("cx", CNOT), ("id", ID)})
  }

  /** The arguments are these numbers. */
  ghost predicate ArgsMean(args: Option<string>, ns: seq<Number>) {
    if args.None? || args.value == "" then ns == [] else PartsMean(Split(args.value), ns)
  }

  ghost predicate PartsMean(parts: seq<string>, ns: seq<Number>) {
    |ns| == |parts| && forall j :: 0 <= j < |parts| ==> ReadFloat(Strip(parts[j])) == Some(ns[j])
  }

  function Values<F>(fl: Floats<F>, ns: seq<Number>): (ps: seq<F>)
    ensures |ps| == |ns|
    ensures forall j :: 0 <= j < |ps| ==> ps[j] == fl.nearest(ns[j])
  {
    seq(|ns|, j requires 0 <= j < |ns| => fl.nearest(ns[j]))
  }

  /** The operands are these qubits. */
  ghost predicate RefsMean(refs: seq<string>, qubits: seq<int>) {
    && |qubits| == |refs|
    && forall j :: 0 <= j < |refs| ==> All(Digit, refs[j]) && qubits[j] == NatValue(refs[j])
  }

  /** What a gate keeps of its numbers, and how many it needs. */
  ghost predicate ParamsMean<F>(fl: Floats<F>, g: Gate, ps: seq<F>, params: seq<F>) {
    match g
    case ID => params == [fl.zero]
    case CZ => params == []
    case X90 => params == []
    case CNOT => params == []
    case YMinus90 => |ps| == 1 && fl.isClose(ps[0]) && params == []
    case _ => |ps| == 1 && params == ps
  }

  ghost predicate GateMeans<F>(fl: Floats<F>, g: GateText, target: string, op: GateOp<F>, ns: seq<Number>) {
    && Named(target, g.name, op.gate)
    && ArgsMean(g.args, ns)
    && RefsMean(g.refs, op.qubits)
    && |op.qubits| == (if op.gate == CZ || op.gate == CNOT then 2 else 1)
    && ParamsMean(fl, op.gate, Values(fl, ns), op.params)
  }

  /** The gate call means the operation. */
  ghost predicate Stands<F>(fl: Floats<F>, g: GateText, target: string, op: GateOp<F>) {
    exists ns :: GateMeans(fl, g, target, op, ns)
  }

  ghost predicate GatesMean<F>(fl: Floats<F>, calls: seq<GateText>, target: string, gates: seq<GateOp<F>>) {
    |gates| == |calls| && forall i :: 0 <= i < |calls| ==> Stands(fl, calls[i], target, gates[i])
  }

  /** The circuit the statements describe, if they describe one. */
  ghost predicate Means<F>(
    fl: Floats<F>, sts: seq<Statement>, target: string, metadata: Metadata, ir: NativeGateIR<F>)
  {
    && ir.target == target && ir.metadata == metadata
    && target in {"cz", "iswap", "pcz", "cnot"}
    && |Declared(sts)| == 1 && ir.numQubits == Declared(sts)[0] && 1 <= ir.numQubits <= 50
    && ir.measurements == Measured(sts)
    && (forall i :: 0 <= i < |ir.measurements| ==> ir.measurements[i] < ir.numQubits)
    && GatesMean(fl, Called(sts), target, ir.gates)
    && (forall i, j :: 0 <= i < |ir.gates| && 0 <= j < |ir.gates[i].qubits| ==>
          ir.gates[i].qubits[j] < ir.numQubits)
  }

  // ---------------------------------------------------------------- one gate

  lemma {:induction false} PartsAre<F>(fl: Floats<F>, parts: seq<string>, ns: seq<Number>)
    requires PartsMean(parts, ns)
    ensures ReadParams(fl, parts) == Some(Values(fl, ns))
    decreases |parts|
  {
    hide ReadFloat, Strip;
    if parts != [] {
      PartsAre(fl, parts[1..], ns[1..]);
      assert Values(fl, ns) == [fl.nearest(ns[0])] + Values(fl, ns[1..]);
    }
  }

  lemma {:induction false} PartsRead<F>(fl: Floats<F>, parts: seq<string>) returns (ns: seq<Number>)
    requires ReadParams(fl, parts).Some?
    ensures PartsMean(parts, ns)
    decreases |parts|
  {
    hide ReadFloat, Strip;
    if parts == [] {
      ns := [];
    } else {
      var rest := PartsRead(fl, parts[1..]);
      ns := [ReadFloat(Strip(parts[0])).value] + rest;
      forall j | 1 <= j < |parts| ensures ReadFloat(Strip(parts[j])) == Some(ns[j]) {
        assert parts[1..][j - 1] == parts[j];
      }
    }
  }

  lemma ArgsAre<F>(fl: Floats<F>, args: Option<string>, ns: seq<Number>)
    requires ArgsMean(args, ns)
    ensures ParamsFrom(fl, args) == Some(Values(fl, ns))
  {
    hide ReadParams, PartsMean, Split;
    if args.Some? && args.value != "" { PartsAre(fl, Split(args.value), ns); } else { assert Values(fl, ns) == []; }
  }

  lemma ArgsRead<F>(fl: Floats<F>, args: Option<string>) returns (ns: seq<Number>)
    requires ParamsFrom(fl, args).Some?
    ensures ArgsMean(args, ns)
  {
    hide ReadParams, PartsMean, Split;
    if args.Some? && args.value != "" { ns := PartsRead(fl, Split(args.value)); } else { ns := []; }
  }

  lemma ShapeIs<F>(fl: Floats<F>, name: string, target: string, qubits: seq<int>, ps: seq<F>, op: GateOp<F>)
    ensures ReadGate(fl, name, ps, qubits, target) == Ok(op) <==>
            && Named(target, name, op.gate) && op.qubits == qubits
            && |op.qubits| == (if op.gate == CZ || op.gate == CNOT then 2 else 1)
            && ParamsMean(fl, op.gate, ps, op.params)
  {
  }

  lemma RefsAre(refs: seq<string>, qubits: seq<int>)
    requires forall i :: 0 <= i < |refs| ==> All(Digit, refs[i])
    ensures RefsMean(refs, qubits) <==> qubits == QubitsFrom(refs)
  {
    hide NatValue;
  }

  /** A gate call is read as an operation exactly when it means it. */
  lemma GateIs<F>(fl: Floats<F>, g: GateText, target: string, op: GateOp<F>)
    requires forall i :: 0 <= i < |g.refs| ==> All(Digit, g.refs[i])
    ensures GateFrom(fl, g, target) == Ok(op) <==> Stands(fl, g, target, op)
  {
    hide ReadGate, ParamsMean, Named, ParamsFrom, ArgsMean, QubitsFrom, RefsMean;
    RefsAre(g.refs, op.qubits);
    if ns :| GateMeans(fl, g, target, op, ns) {
      ArgsAre(fl, g.args, ns);
      ShapeIs(fl, g.name, target, QubitsFrom(g.refs), Values(fl, ns), op);
    }
    if GateFrom(fl, g, target) == Ok(op) {
      var ns := ArgsRead(fl, g.args);
      ArgsAre(fl, g.args, ns);
      ShapeIs(fl, g.name, target, QubitsFrom(g.refs), Values(fl, ns), op);
      assert GateMeans(fl, g, target, op, ns);
    }
  }

  // ---------------------------------------------------------------- one line

  lemma StatementDigits(line: string)
    ensures StatementOf(line).Some? && StatementOf(line).value.Calls? ==>
              var g := StatementOf(line).value.g; forall i :: 0 <= i < |g.refs| ==> All(Digit, g.refs[i])
  {
    hide Ignored, MatchDecl, MatchMeasure, MatchGate, NatValue;
  }

  /** What a statement adds to what was gathered. */
  function Added<F>(fl: Floats<F>, target: string, acc: Gathered<F>, st: Statement): Outcome<Gathered<F>>
    requires st.Calls? ==> forall i :: 0 <= i < |st.g.refs| ==> All(Digit, st.g.refs[i])
  {
    match st
    case Silent => Ok(acc)
    case Declares(n) => if acc.numQubits.Some? then ConversionError else Ok(acc.(numQubits := Some(n)))
    case Measures(q) => Ok(acc.(measurements := acc.measurements + [q]))
    case Calls(g) =>
      match GateFrom(fl, g, target)
      case Ok(op) => Ok(acc.(gates := acc.gates + [op]))
      case ConversionError => ConversionError
      case Unwrapped => Unwrapped
  }

  lemma LineAdds<F>(fl: Floats<F>, target: string, acc: Gathered<F>, line: string)
    ensures StatementOf(line).None? ==> ReadLine(fl, target, acc, line) == ConversionError
    ensures StatementOf(line).Some? && StatementOf(line).value.Calls? ==>
              var g := StatementOf(line).value.g; forall i :: 0 <= i < |g.refs| ==> All(Digit, g.refs[i])
    ensures StatementOf(line).Some? ==>
              ReadLine(fl, target, acc, line) == Added(fl, target, acc, StatementOf(line).value)
  {
    StatementDigits(line);
    hide Ignored, MatchDecl, MatchMeasure, MatchGate, NatValue, GateFrom;
  }

  // ---------------------------------------------------------------- all lines

  function Opt(n: Option<nat>): seq<nat> {
    match n case None => [] case Some(v) => [v]
  }

  /** From `acc` the statements lead to `acc'`. */
  ghost predicate Adds<F>(fl: Floats<F>, target: string, acc: Gathered<F>, sts: seq<Statement>, acc': Gathered<F>) {
    && Opt(acc'.numQubits) == Opt(acc.numQubits) + Declared(sts)
    && acc'.measurements == acc.measurements + Measured(sts)
    && acc.gates <= acc'.gates
    && GatesMean(fl, Called(sts), target, acc'.gates[|acc.gates|..])
  }

  ghost predicate AllSay(lines: seq<string>, sts: seq<Statement>) {
    |sts| == |lines| && forall i :: 0 <= i < |lines| ==> StatementOf(Strip(lines[i])) == Some(sts[i])
  }

  lemma FirstOf(sts: seq<Statement>)
    requires sts != []
    ensures Declared(sts) == if sts[0].Declares? then [sts[0].n] + Declared(sts[1..]) else Declared(sts[1..])
    ensures Measured(sts) == if sts[0].Measures? then [sts[0].q] + Measured(sts[1..]) else Measured(sts[1..])
    ensures Called(sts) == if sts[0].Calls? then [sts[0].g] + Called(sts[1..]) else Called(sts[1..])
  {
  }

  /** One operation more, at the front of those still to come. */
  lemma GatesFirst<F>(
    fl: Floats<F>, g: GateText, calls: seq<GateText>, target: string, op: GateOp<F>, before: seq<GateOp<F>>,
    after: seq<GateOp<F>>)
    requires forall i :: 0 <= i < |g.refs| ==> All(Digit, g.refs[i])
    requires GateFrom(fl, g, target) == Ok(op)
    ensures before <= after && GatesMean(fl, [g] + calls, target, after[|before|..]) <==>
            before + [op] <= after && GatesMean(fl, calls, target, after[|before| + 1..])
  {
    hide Stands, GateFrom;
    var k := |before|;
    var rest := if k <= |after| then after[k..] else [];
    GateIs(fl, g, target, op);
    if before <= after && GatesMean(fl, [g] + calls, target, rest) {
      GateIs(fl, g, target, rest[0]);
      assert Stands(fl, ([g] + calls)[0], target, rest[0]);
      assert after[k] == op && after[k + 1..] == rest[1..];
      forall i | 0 <= i < |calls| ensures Stands(fl, calls[i], target, rest[1..][i]) {
        assert Stands(fl, ([g] + calls)[i + 1], target, rest[i + 1]);
      }
    }
    if before + [op] <= after && GatesMean(fl, calls, target, after[k + 1..]) {
      assert rest == [op] + after[k + 1..];
      forall i | 0 <= i < |calls| + 1 ensures Stands(fl, ([g] + calls)[i], target, rest[i]) {
        if i > 0 { assert Stands(fl, calls[i - 1], target, after[k + 1..][i - 1]); }
      }
    }
  }

  lemma AddsFirst<F>(
    fl: Floats<F>, target: string, acc: Gathered<F>, mid: Gathered<F>, sts: seq<Statement>, acc': Gathered<F>)
    requires sts != []
    requires sts[0].Calls? ==> forall i :: 0 <= i < |sts[0].g.refs| ==> All(Digit, sts[0].g.refs[i])
    requires Added(fl, target, acc, sts[0]) == Ok(mid)
    ensures Adds(fl, target, acc, sts, acc') <==> Adds(fl, target, mid, sts[1..], acc')
  {
    hide GatesMean, GateFrom, Declared, Measured, Called;
    FirstOf(sts);
    match sts[0]
    case Silent =>
    case Declares(n) =>
      assert Opt(mid.numQubits) == [n] && Opt(acc.numQubits) == [];
    case Measures(q) =>
      assert acc.measurements + ([q] + Measured(sts[1..])) == mid.measurements + Measured(sts[1..]);
    case Calls(g) =>
      GatesFirst(fl, g, Called(sts[1..]), target, GateFrom(fl, g, target).value, acc.gates, acc'.gates);
  }

  lemma AddsNone<F>(fl: Floats<F>, target: string, acc: Gathered<F>, acc': Gathered<F>)
    ensures Adds(fl, target, acc, [], acc') <==> acc' == acc
  {
    hide Stands;
    if Adds(fl, target, acc, [], acc') {
      assert Opt(acc'.numQubits) == Opt(acc.numQubits);
      assert acc'.gates == acc.gates + acc'.gates[|acc.gates|..];
    }
  }

  lemma {:induction false} LinesAdd<F>(
    fl: Floats<F>, target: string, acc: Gathered<F>, lines: seq<string>, sts: seq<Statement>, acc': Gathered<F>)
    requires AllSay(lines, sts)
    ensures ReadLines(fl, target, acc, lines) == Ok(acc') <==> Adds(fl, target, acc, sts, acc')
    decreases |lines|
  {
    hide ReadLine, StatementOf, Strip, Adds, Added;
    if lines == [] {
      AddsNone(fl, target, acc, acc');
      assert sts == [];
    } else {
      LineAdds(fl, target, acc, Strip(lines[0]));
      var read := ReadLine(fl, target, acc, Strip(lines[0]));
      assert AllSay(lines[1..], sts[1..]);
      if read.Ok? {
        AddsFirst(fl, target, acc, read.value, sts, acc');
        LinesAdd(fl, target, read.value, lines[1..], sts[1..], acc');
      } else {
        NothingAdds(fl, target, acc, sts, acc');
      }
    }
  }

  lemma NothingAdds<F>(fl: Floats<F>, target: string, acc: Gathered<F>, sts: seq<Statement>, acc': Gathered<F>)
    requires sts != []
    requires sts[0].Calls? ==> forall i :: 0 <= i < |sts[0].g.refs| ==> All(Digit, sts[0].g.refs[i])
    requires !Added(fl, target, acc, sts[0]).Ok?
    ensures !Adds(fl, target, acc, sts, acc')
  {
    hide Stands, GateFrom;
    FirstOf(sts);
    if sts[0].Calls? && Adds(fl, target, acc, sts, acc') {
      var rest := acc'.gates[|acc.gates|..];
      assert Stands(fl, Called(sts)[0], target, rest[0]);
      GateIs(fl, sts[0].g, target, rest[0]);
    }
  }

  lemma {:induction false} UnreadableFails<F>(
    fl: Floats<F>, target: string, acc: Gathered<F>, lines: seq<string>, i: nat)
    requires i < |lines| && StatementOf(Strip(lines[i])).None?
    ensures !ReadLines(fl, target, acc, lines).Ok?
    decreases |lines|
  {
    hide ReadLine, StatementOf, Strip;
    LineAdds(fl, target, acc, Strip(lines[0]));
    var read := ReadLine(fl, target, acc, Strip(lines[0]));
    if i > 0 && read.Ok? { UnreadableFails(fl, target, read.value, lines[1..], i - 1); }
  }

  // ---------------------------------------------------------------- the whole text

  lemma StandsFits<F>(fl: Floats<F>, g: GateText, target: string, op: GateOp<F>)
    requires Stands(fl, g, target, op)
    ensures WellShaped(op) && LegalGates(target).Some? && op.gate in LegalGates(target).value
    ensures forall j :: 0 <= j < |op.qubits| ==> op.qubits[j] >= 0
  {
    hide ArgsMean, NatValue;
  }

  lemma {:induction false} MeasuredNats(sts: seq<Statement>)
    ensures forall i :: 0 <= i < |Measured(sts)| ==> Measured(sts)[i] >= 0
    decreases |sts|
  {
    if sts != [] { MeasuredNats(sts[1..]); }
  }

  lemma ValidIs<F>(fl: Floats<F>, sts: seq<Statement>, ir: NativeGateIR<F>)
    requires GatesMean(fl, Called(sts), ir.target, ir.gates) && ir.measurements == Measured(sts)
    ensures Valid(ir) <==>
            && ir.target in {"cz", "iswap", "pcz", "cnot"} && 1 <= ir.numQubits <= 50
            && (forall i :: 0 <= i < |ir.measurements| ==> ir.measurements[i] < ir.numQubits)
            && (forall i, j :: 0 <= i < |ir.gates| && 0 <= j < |ir.gates[i].qubits| ==>
                  ir.gates[i].qubits[j] < ir.numQubits)
  {
    MeasuredNats(sts);
    forall i | 0 <= i < |ir.gates|
      ensures WellShaped(ir.gates[i]) && LegalGates(ir.target).Some? && ir.gates[i].gate in LegalGates(ir.target).value
      ensures forall j :: 0 <= j < |ir.gates[i].qubits| ==> ir.gates[i].qubits[j] >= 0
    {
      StandsFits(fl, Called(sts)[i], ir.target, ir.gates[i]);
    }
    hide WellShaped, Stands, Called, Measured;
  }

  lemma AssembledIs<F>(fl: Floats<F>, sts: seq<Statement>, acc: Gathered<F>, target: string, metadata: Metadata,
                       ir: NativeGateIR<F>)
    requires Adds(fl, target, Gathered(None, [], []), sts, acc)
    ensures Assemble(acc, target, metadata) == Ok(ir) ==> Means(fl, sts, target, metadata, ir)
  {
    hide Valid, Stands, Called, Measured, Declared;
    var start: Gathered<F> := Gathered(None, [], []);
    assert acc.gates[|start.gates|..] == acc.gates;
    assert [] + Declared(sts) == Declared(sts) && [] + Measured(sts) == Measured(sts);
    if Assemble(acc, target, metadata) == Ok(ir) { ValidIs(fl, sts, ir); }
  }

  lemma MeantIs<F>(fl: Floats<F>, sts: seq<Statement>, target: string, metadata: Metadata, ir: NativeGateIR<F>)
    requires Means(fl, sts, target, metadata, ir)
    ensures ir.numQubits >= 1
    ensures var acc := Gathered(Some(ir.numQubits), ir.gates, ir.measurements);
            Adds(fl, target, Gathered(None, [], []), sts, acc) && Assemble(acc, target, metadata) == Ok(ir)
  {
    hide Valid, Stands, Called, Measured, Declared;
    var start: Gathered<F> := Gathered(None, [], []);
    assert ir.gates[|start.gates|..] == ir.gates;
    assert [] + Declared(sts) == Declared(sts) && [] + Measured(sts) == Measured(sts);
    assert Declared(sts) == [Declared(sts)[0]];
    ValidIs(fl, sts, ir);
  }

  /** A text is accepted, and as this circuit, if and only if each of its lines is a
      way of writing some statement and the circuit is what the statements describe:
      one register, the measurements and gates in order, everything in range. */
  lemma ParseMeans<F>(fl: Floats<F>, text: string, target: string, metadata: Metadata, ir: NativeGateIR<F>)
    ensures Parse(fl, text, target, metadata) == Ok(ir) <==>
            exists sts: seq<Statement> ::
              && |sts| == |Lines(text)| && (forall i :: 0 <= i < |sts| ==> Says(Lines(text)[i], sts[i]))
              && Means(fl, sts, target, metadata, ir)
  {
    hide Says, StatementOf, Means, Adds, Assemble, ReadLines, SplitLines, Strip;
    var start: Gathered<F> := Gathered(None, [], []);
    var lines := SplitLines(text);
    ParseGathers(fl, text, target, metadata);
    if Parse(fl, text, target, metadata) == Ok(ir) {
      var acc := ReadLines(fl, target, start, lines).value;
      forall i | 0 <= i < |lines| ensures StatementOf(Strip(lines[i])).Some? {
        if StatementOf(Strip(lines[i])).None? { UnreadableFails(fl, target, start, lines, i); }
      }
      var sts := seq(|lines|, i requires 0 <= i < |lines| => StatementOf(Strip(lines[i])).value);
      LinesAdd(fl, target, start, lines, sts, acc);
      AssembledIs(fl, sts, acc, target, metadata, ir);
      forall i | 0 <= i < |sts| ensures Says(Lines(text)[i], sts[i]) { StatementIs(Lines(text)[i], sts[i]); }
    }
    if sts: seq<Statement> :|
      && |sts| == |Lines(text)| && (forall i :: 0 <= i < |sts| ==> Says(Lines(text)[i], sts[i]))
      && Means(fl, sts, target, metadata, ir)
    {
      forall i | 0 <= i < |lines| ensures StatementOf(Strip(lines[i])) == Some(sts[i]) {
        StatementIs(Lines(text)[i], sts[i]);
      }
      MeantIs(fl, sts, target, metadata, ir);
      LinesAdd(fl, target, start, lines, sts, Gathered(Some(ir.numQubits), ir.gates, ir.measurements));
    }
  }
}
