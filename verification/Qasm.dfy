/** The OpenQASM 3.0 subset: recognisers, parser and printer. */
module Qasm {
  import opened Prelude
  import opened Text
  import opened Numbers
  import opened Ir

  // ---------------------------------------------------------------- recognisers

  /** `\s*;` */
  predicate AtEnd(s: string) {
    Literal(";", Skip(Blank, s)).Match?
  }

  /** `(\d+)]` */
  function MatchIndex(s: string): Match {
    match Many(Digit, s)
    case NoMatch => NoMatch
    case Match(d, a) =>
      match Literal("]", a)
      case NoMatch => NoMatch
      case Match(_, rest) => Match(d, rest)
  }

  /** `\w+\[(\d+)]` */
  function MatchRef(s: string): (m: Match)
    ensures m.Match? ==> |m.rest| < |s|
    ensures m.Match? ==> m.got != "" && All(Digit, m.got)
  {
    match Many(Word, s)
    case NoMatch => NoMatch
    case Match(_, a) =>
      match Literal("[", a)
      case NoMatch => NoMatch
      case Match(_, b) => MatchIndex(b)
  }

  /** `OPENQASM\s+[\d.]+\s*;` */
  predicate MatchHeader(s: string) {
    match Literal("OPENQASM", s)
    case NoMatch => false
    case Match(_, a) =>
      match Many(Blank, a)
      case NoMatch => false
      case Match(_, b) =>
        match Many(Version, b)
        case NoMatch => false
        case Match(_, c) => AtEnd(c)
  }

  /** `include\s+"[^"]+"\s*;` */
  predicate MatchInclude(s: string) {
    match Literal("include", s)
    case NoMatch => false
    case Match(_, a) =>
      match Many(Blank, a)
      case NoMatch => false
      case Match(_, b) =>
        match Literal("\"", b)
        case NoMatch => false
        case Match(_, c) =>
          match Many(NotQuote, c)
          case NoMatch => false
          case Match(_, d) =>
            match Literal("\"", d)
            case NoMatch => false
            case Match(_, e) => AtEnd(e)
  }

  /** `qubit\[(\d+)]\s+\w+\s*;`, and the same for `bit`. */
  function MatchDecl(head: string, s: string): (r: Option<string>)
    ensures r.Some? ==> All(Digit, r.value)
  {
    match Literal(head, s)
    case NoMatch => None
    case Match(_, a) =>
      match MatchIndex(a)
      case NoMatch => None
      case Match(d, b) =>
        match Many(Blank, b)
        case NoMatch => None
        case Match(_, c) =>
          match Many(Word, c)
          case NoMatch => None
          case Match(_, e) => if AtEnd(e) then Some(d) else None
  }

  /** `\w+\[(\d+)]\s*=\s*measure\s+\w+\[(\d+)]\s*;`, of which the second number counts. */
  function MatchMeasure(s: string): (r: Option<string>)
    ensures r.Some? ==> All(Digit, r.value)
  {
    match MatchRef(s)
    case NoMatch => None
    case Match(_, a) =>
      match Literal("=", Skip(Blank, a))
      case NoMatch => None
      case Match(_, b) =>
        match Literal("measure", Skip(Blank, b))
        case NoMatch => None
        case Match(_, c) =>
          match Many(Blank, c)
          case NoMatch => None
          case Match(_, d) =>
            match MatchRef(d)
            case NoMatch => None
            case Match(q, e) => if AtEnd(e) then Some(q) else None
  }

  /** `(?:\s*,\s*\w+\[\d+])*`, with the numbers `findall` picks out of it. */
  function MoreRefs(s: string): (r: (seq<string>, string))
    ensures forall i :: 0 <= i < |r.0| ==> All(Digit, r.0[i])
    decreases |s|
  {
    match Literal(",", Skip(Blank, s))
    case NoMatch => ([], s)
    case Match(_, a) =>
      match MatchRef(Skip(Blank, a))
      case NoMatch => ([], s)
      case Match(d, b) =>
        var (more, rest) := MoreRefs(b);
        ([d] + more, rest)
  }

  /** `(?:\(([^)]*)\))?`: a bracket that opens has to close, since no blank starts with it. */
  function MatchArgs(s: string): Option<(Option<string>, string)> {
    match Literal("(", s)
    case NoMatch => Some((None, s))
    case Match(_, a) =>
      var n := Span(NotClose, a);
      match Literal(")", a[n..])
      case NoMatch => None
      case Match(_, b) => Some((Some(a[..n]), b))
  }

  datatype GateText = GateText(name: string, args: Option<string>, refs: seq<string>)

  /** The gate pattern. */
  function MatchGate(s: string): (r: Option<GateText>)
    ensures r.Some? ==> forall i :: 0 <= i < |r.value.refs| ==> All(Digit, r.value.refs[i])
  {
    match Many(Word, s)
    case NoMatch => None
    case Match(name, a) =>
      match MatchArgs(a)
      case None => None
      case Some(ab) =>
        match Many(Blank, ab.1)
        case NoMatch => None
        case Match(_, c) =>
          match MatchRef(c)
          case NoMatch => None
          case Match(d, e) =>
            var (more, rest) := MoreRefs(e);
            if AtEnd(rest) then Some(GateText(name, ab.0, [d] + more)) else None
  }

  /** The recognisers a non-empty line is tried against, in this order. */
  datatype Recogniser = Comment | Header | Include | BitDecl | QubitDecl | Measurement | GateCall

  predicate Accepts(k: Recogniser, line: string) {
    match k
    case Comment => Literal("//", line).Match?
    case Header => MatchHeader(line)
    case Include => MatchInclude(line)
    case BitDecl => MatchDecl("bit[", line).Some?
    case QubitDecl => MatchDecl("qubit[", line).Some?
    case Measurement => MatchMeasure(line).Some?
    case GateCall => MatchGate(line).Some?
  }

  // ---------------------------------------------------------------- reading gates

  /** A `QASMConversionError`, or an exception that is not wrapped into one. */
  datatype Outcome<T> = Ok(value: T) | ConversionError | Unwrapped

  /** `s.split(",")` */
  function Split(s: string): (r: seq<string>)
    ensures r != []
    decreases |s|
  {
    if s == "" then [""]
    else
      var rest := Split(s[1..]);
      if s[0] == ',' then [""] + rest else [[s[0]] + rest[0]] + rest[1..]
  }

  function ReadParams<F>(fl: Floats<F>, parts: seq<string>): Option<seq<F>>
    decreases |parts|
  {
    if parts == [] then Some([])
    else
      match ReadFloat(Strip(parts[0]))
      case None => None
      case Some(n) =>
        match ReadParams(fl, parts[1..])
        case None => None
        case Some(rest) => Some([fl.nearest(n)] + rest)
  }

  function ParamsFrom<F>(fl: Floats<F>, args: Option<string>): Option<seq<F>> {
    if args.None? || args.value == "" then Some([]) else ReadParams(fl, Split(args.value))
  }

  function QubitsFrom(refs: seq<string>): (r: seq<int>)
    requires forall i :: 0 <= i < |refs| ==> All(Digit, refs[i])
    ensures |r| == |refs|
  {
    seq(|refs|, i requires 0 <= i < |refs| && All(Digit, refs[i]) => NatValue(refs[i]))
  }

  /** Constructing a `GateOp` raises unless its shape is right. */
  function Checked<F>(op: GateOp<F>): Outcome<GateOp<F>> {
    if WellShaped(op) then Ok(op) else Unwrapped
  }

  function CzGate(name: string): Option<Gate> {
    if name == "rx" then Some(RX)
    else if name == "ry" then Some(RY)
    else if name == "rz" then Some(RZ)
    else if name == "cz" then Some(CZ)
    else if name == "id" then Some(ID)
    else None
  }

  function CnotGate(name: string): Option<Gate> {
    if name == "sx" then Some(X90)
    else if name == "rz" then Some(VirtualZ)
    else if name == "cx" then Some(CNOT)
    else if name == "id" then Some(ID)
    else None
  }

  /** The parameters a mapped gate keeps. */
  function Kept<F>(fl: Floats<F>, g: Gate, params: seq<F>): seq<F> {
    match g
    case ID => [fl.zero]
    case CZ => []
    case X90 => []
    case CNOT => []
    case _ => params
  }

  /** `_openqasm_gate_to_ir` */
  function ReadGate<F>(
    fl: Floats<F>, name: string, params: seq<F>, qubits: seq<int>, target: string): Outcome<GateOp<F>>
  {
    if target == "cz" then
      match CzGate(name)
      case None => ConversionError
      case Some(g) => Checked(GateOp(g, qubits, Kept(fl, g, params)))
    else if target == "cnot" then
      match CnotGate(name)
      case Some(g) => Checked(GateOp(g, qubits, Kept(fl, g, params)))
      case None =>
        if name == "ry" && |params| == 1 && fl.isClose(params[0]) then Checked(GateOp(YMinus90, qubits, []))
        else ConversionError
    else ConversionError
  }

  function GateFrom<F>(fl: Floats<F>, g: GateText, target: string): Outcome<GateOp<F>>
    requires forall i :: 0 <= i < |g.refs| ==> All(Digit, g.refs[i])
  {
    match ParamsFrom(fl, g.args)
    case None => Unwrapped
    case Some(params) => ReadGate(fl, g.name, params, QubitsFrom(g.refs), target)
  }

  // ---------------------------------------------------------------- reading lines

  /** What the loop over the lines has gathered. */
  datatype Gathered<F> = Gathered(numQubits: Option<nat>, gates: seq<GateOp<F>>, measurements: seq<int>)

  predicate Ignored(line: string) {
    line == "" || Accepts(Comment, line) || Accepts(Header, line) || Accepts(Include, line) || Accepts(BitDecl, line)
  }

  /** One round of the loop over the lines. */
  function ReadLine<F>(fl: Floats<F>, target: string, acc: Gathered<F>, line: string): Outcome<Gathered<F>> {
    if Ignored(line) then Ok(acc)
    else
      match MatchDecl("qubit[", line)
      case Some(d) => if acc.numQubits.Some? then ConversionError else Ok(acc.(numQubits := Some(NatValue(d))))
      case None =>
        match MatchMeasure(line)
        case Some(q) => Ok(acc.(measurements := acc.measurements + [NatValue(q)]))
        case None =>
          match MatchGate(line)
          case None => ConversionError
          case Some(g) =>
            match GateFrom(fl, g, target)
            case Ok(op) => Ok(acc.(gates := acc.gates + [op]))
            case ConversionError => ConversionError
            case Unwrapped => Unwrapped
  }

  function ReadLines<F>(fl: Floats<F>, target: string, acc: Gathered<F>, lines: seq<string>): Outcome<Gathered<F>>
    decreases |lines|
  {
    if lines == [] then Ok(acc)
    else
      match ReadLine(fl, target, acc, Strip(lines[0]))
      case Ok(next) => ReadLines(fl, target, next, lines[1..])
      case ConversionError => ConversionError
      case Unwrapped => Unwrapped
  }

  /** The validated result. Metadata is given by the caller. */
  function Assemble<F>(acc: Gathered<F>, target: string, metadata: Metadata): Outcome<NativeGateIR<F>> {
    match acc.numQubits
    case None => ConversionError
    case Some(n) =>
      var ir := NativeGateIR(target, n, acc.gates, acc.measurements, metadata);
      if Valid(ir) then Ok(ir) else ConversionError
  }

  function Parse<F>(fl: Floats<F>, text: string, target: string, metadata: Metadata): Outcome<NativeGateIR<F>> {
    match ReadLines(fl, target, Gathered(None, [], []), SplitLines(Strip(text)))
    case Ok(acc) => Assemble(acc, target, metadata)
    case ConversionError => ConversionError
    case Unwrapped => Unwrapped
  }

  // ---------------------------------------------------------------- printing

  function QubitText(q: int): string {
    "q[" + IntText(q) + "]"
  }

  function QubitTexts(qubits: seq<int>): (r: seq<string>)
    ensures |r| == |qubits|
  {
    seq(|qubits|, i requires 0 <= i < |qubits| => QubitText(qubits[i]))
  }

  function OperandsText(qubits: seq<int>): string {
    Join(QubitTexts(qubits), ", ")
  }

  /** `_format_float` */
  function ParamText<F>(fl: Floats<F>, x: F): string {
    Format(fl.round15(x))
  }

  function ParamTexts<F>(fl: Floats<F>, params: seq<F>): (r: seq<string>)
    ensures |r| == |params|
  {
    seq(|params|, i requires 0 <= i < |params| => ParamText(fl, params[i]))
  }

  function Plainly(name: string, qubits: seq<int>): string {
    name + " " + OperandsText(qubits) + ";"
  }

  function Parametrised(name: string, args: string, qubits: seq<int>): string {
    name + "(" + args + ") " + OperandsText(qubits) + ";"
  }

  /** `_ir_gate_to_openqasm`; None when the gate has no text for the target. */
  function PrintGate<F>(fl: Floats<F>, op: GateOp<F>, target: string): Option<string> {
    if target == "cz" then
      match op.gate
      case RX => Some(Parametrised("rx", Join(ParamTexts(fl, op.params), ", "), op.qubits))
      case RY => Some(Parametrised("ry", Join(ParamTexts(fl, op.params), ", "), op.qubits))
      case RZ => Some(Parametrised("rz", Join(ParamTexts(fl, op.params), ", "), op.qubits))
      case VirtualZ =>
        if op.params == [] then None else Some(Parametrised("rz", ParamText(fl, op.params[0]), op.qubits))
      case CZ => Some(Plainly("cz", op.qubits))
      case ID => Some(Plainly("id", op.qubits))
      case _ => None
    else if target == "cnot" then
      match op.gate
      case X90 => Some(Plainly("sx", op.qubits))
      case YMinus90 => Some(Parametrised("ry", ParamText(fl, fl.minusHalfPi), op.qubits))
      case VirtualZ =>
        if op.params == [] then None else Some(Parametrised("rz", ParamText(fl, op.params[0]), op.qubits))
      case CNOT => Some(Plainly("cx", op.qubits))
      case ID => Some(Plainly("id", op.qubits))
      case _ => None
    else None
  }

  function PrintGates<F>(fl: Floats<F>, gates: seq<GateOp<F>>, target: string): Option<seq<string>>
    decreases |gates|
  {
    if gates == [] then Some([])
    else
      match PrintGates(fl, gates[..|gates| - 1], target)
      case None => None
      case Some(before) =>
        match PrintGate(fl, gates[|gates| - 1], target)
        case None => None
        case Some(line) => Some(before + [line])
  }

  const HEADER := "OPENQASM 3.0;"
  const INCLUDE := "include \"stdgates.inc\";"

  function QubitDeclText(n: int): string {
    "qubit[" + IntText(n) + "] q;"
  }

  function BitDeclText(n: int): string {
    "bit[" + IntText(n) + "] c;"
  }

  function MeasureText(i: int, q: int): string {
    "c[" + IntText(i) + "] = measure q[" + IntText(q) + "];"
  }

  function MeasureTexts(ms: seq<int>): (r: seq<string>)
    ensures |r| == |ms|
  {
    seq(|ms|, i requires 0 <= i < |ms| => MeasureText(i, ms[i]))
  }

  function Preamble<F>(ir: NativeGateIR<F>): seq<string> {
    [HEADER, INCLUDE, QubitDeclText(ir.numQubits)]
    + (if ir.measurements == [] then [] else [BitDeclText(|ir.measurements|)])
  }

  function PrintLines<F>(fl: Floats<F>, ir: NativeGateIR<F>): Option<seq<string>> {
    match PrintGates(fl, ir.gates, ir.target)
    case None => None
    case Some(gates) => Some(Preamble(ir) + gates + MeasureTexts(ir.measurements))
  }

  function Print<F>(fl: Floats<F>, ir: NativeGateIR<F>): Option<string> {
    match PrintLines(fl, ir)
    case None => None
    case Some(lines) => Some(Join(lines, "\n") + "\n")
  }

  // ---------------------------------------------------------------- the loops of the source

  /** `openqasm_to_ir` */
  method OpenqasmToIr<F>(fl: Floats<F>, qasm: string, target: string, metadata: Metadata)
    returns (r: Outcome<NativeGateIR<F>>)
    ensures r == Parse(fl, qasm, target, metadata)
  {
    var numQubits: Option<nat>, gates: seq<GateOp<F>>, measurements: seq<int> := None, [], [];
    var lines := SplitLines(Strip(qasm));
    var i := 0;
    while i < |lines|
      invariant i <= |lines|
      invariant ReadLines(fl, target, Gathered(None, [], []), lines)
             == ReadLines(fl, target, Gathered(numQubits, gates, measurements), lines[i..])
    {
      var line := Strip(lines[i]);
      assert lines[i..][0] == lines[i] && lines[i..][1..] == lines[i + 1..];
      i := i + 1;
      if Ignored(line) { continue; }
      var decl := MatchDecl("qubit[", line);
      if decl.Some? {
        if numQubits.Some? { return ConversionError; }
        numQubits := Some(NatValue(decl.value));
        continue;
      }
      var measured := MatchMeasure(line);
      if measured.Some? {
        measurements := measurements + [NatValue(measured.value)];
        continue;
      }
      var call := MatchGate(line);
      if call.None? { return ConversionError; }
      var op := GateFrom(fl, call.value, target);
      match op
      case Ok(g) => gates := gates + [g];
      case ConversionError => return ConversionError;
      case Unwrapped => return Unwrapped;
    }
    assert lines[i..] == [];
    r := Assemble(Gathered(numQubits, gates, measurements), target, metadata);
  }

  /** `ir_to_openqasm` */
  method IrToOpenqasm<F>(fl: Floats<F>, ir: NativeGateIR<F>) returns (r: Option<string>)
    ensures r == Print(fl, ir)
  {
    hide PrintGate, QubitDeclText, BitDeclText, MeasureText, Join;
    var lines := [HEADER, INCLUDE, QubitDeclText(ir.numQubits)];
    if ir.measurements != [] { lines := lines + [BitDeclText(|ir.measurements|)]; }
    var i := 0;
    ghost var printed: seq<string> := [];
    while i < |ir.gates|
      invariant i <= |ir.gates|
      invariant PrintGates(fl, ir.gates[..i], ir.target) == Some(printed)
      invariant lines == Preamble(ir) + printed
    {
      var line := PrintGate(fl, ir.gates[i], ir.target);
      assert ir.gates[..i + 1][..i] == ir.gates[..i];
      if line.None? {
        GatesFail(fl, ir.gates, ir.target, i);
        return None;
      }
      printed := printed + [line.value];
      lines := lines + [line.value];
      i := i + 1;
    }
    assert ir.gates[..i] == ir.gates;
    var j := 0;
    while j < |ir.measurements|
      invariant j <= |ir.measurements|
      invariant lines == Preamble(ir) + printed + MeasureTexts(ir.measurements)[..j]
    {
      lines := lines + [MeasureText(j, ir.measurements[j])];
      j := j + 1;
    }
    assert MeasureTexts(ir.measurements)[..j] == MeasureTexts(ir.measurements);
    return Some(Join(lines, "\n") + "\n");
  }

  lemma {:induction false} GatesFail<F>(fl: Floats<F>, gates: seq<GateOp<F>>, target: string, i: nat)
    requires i < |gates| && PrintGate(fl, gates[i], target).None?
    ensures PrintGates(fl, gates, target).None?
    decreases |gates|
  {
    if i < |gates| - 1 {
      GatesFail(fl, gates[..|gates| - 1], target, i);
    }
  }
}
