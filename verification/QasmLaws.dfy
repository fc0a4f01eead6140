/** Printing and parsing are inverse to each other, up to rounding. */
module QasmLaws {
  import opened Prelude
  import opened Text
  import opened Numbers
  import opened Ir
  import opened Qasm
  import opened QasmLines

  // ---------------------------------------------------------------- what a trip through text does

  function RoundAll<F>(fl: Floats<F>, xs: seq<F>): (r: seq<F>)
    ensures |r| == |xs|
    ensures forall i :: 0 <= i < |r| ==> r[i] == fl.Rounded(xs[i])
  {
    seq(|xs|, i requires 0 <= i < |xs| => fl.Rounded(xs[i]))
  }

  function NormParams<F>(fl: Floats<F>, op: GateOp<F>): seq<F> {
    if op.gate == ID then [fl.zero] else RoundAll(fl, op.params)
  }

  function NormGate<F>(fl: Floats<F>, op: GateOp<F>): GateOp<F> {
    op.(params := NormParams(fl, op))
  }

  function NormGates<F>(fl: Floats<F>, gates: seq<GateOp<F>>): (r: seq<GateOp<F>>)
    ensures |r| == |gates|
    ensures forall i :: 0 <= i < |r| ==> r[i] == NormGate(fl, gates[i])
  {
    seq(|gates|, i requires 0 <= i < |gates| => NormGate(fl, gates[i]))
  }

  /** Every `id` duration becomes zero, every other parameter is rounded to fifteen digits. */
  function Norm<F>(fl: Floats<F>, ir: NativeGateIR<F>): NativeGateIR<F> {
    ir.(gates := NormGates(fl, ir.gates))
  }

  lemma NormIsValid<F>(fl: Floats<F>, ir: NativeGateIR<F>)
    requires Valid(ir)
    ensures Valid(Norm(fl, ir))
  {
    forall i | 0 <= i < |ir.gates| ensures WellShaped(NormGate(fl, ir.gates[i])) { }
  }

  // ---------------------------------------------------------------- printability

  predicate Rotation(g: Gate) {
    g == RX || g == RY || g == RZ
  }

  predicate PrintableGate(g: Gate, target: string) {
    target == "cz" || (target == "cnot" && !Rotation(g))
  }

  lemma PrintsGate<F>(fl: Floats<F>, op: GateOp<F>, target: string)
    requires WellShaped(op) && LegalGates(target).Some? && op.gate in LegalGates(target).value
    ensures PrintGate(fl, op, target).Some? <==> PrintableGate(op.gate, target)
  {
    hide Parametrised, Plainly, ParamText, ParamTexts, Join;
  }

  lemma FirstGatesFit<F>(gates: seq<GateOp<F>>, legal: set<Gate>, n: int)
    requires gates != [] && GatesFit(gates, legal, n)
    ensures var k := |gates| - 1; GatesFit(gates[..k], legal, n) && WellShaped(gates[k]) && gates[k].gate in legal
  {
  }

  lemma {:induction false} PrintsGates<F>(fl: Floats<F>, gates: seq<GateOp<F>>, target: string, n: int)
    requires LegalGates(target).Some? && GatesFit(gates, LegalGates(target).value, n)
    ensures PrintGates(fl, gates, target).Some?
            <==> forall i :: 0 <= i < |gates| ==> PrintableGate(gates[i].gate, target)
    decreases |gates|
  {
    hide PrintGate, PrintableGate, LegalGates, GatesFit;
    if gates != [] {
      var k := |gates| - 1;
      FirstGatesFit(gates, LegalGates(target).value, n);
      PrintsGates(fl, gates[..k], target, n);
      PrintsGate(fl, gates[k], target);
      assert forall i :: 0 <= i < k ==> gates[..k][i] == gates[i];
    }
  }

  /** Printing a valid circuit succeeds exactly when its target is cz, or its
      target is cnot and it has no rx, ry or rz, or it has no gates. */
  lemma PrintabilityIsExact<F>(fl: Floats<F>, ir: NativeGateIR<F>)
    requires Valid(ir)
    ensures Print(fl, ir).Some? <==>
            ir.target == "cz"
            || (ir.target == "cnot" && forall i :: 0 <= i < |ir.gates| ==> !Rotation(ir.gates[i].gate))
            || ir.gates == []
  {
    PrintsGates(fl, ir.gates, ir.target, ir.numQubits);
    hide PrintGates, LegalGates, Join;
    if ir.gates != [] && ir.target != "cz" && ir.target != "cnot" {
      assert !PrintableGate(ir.gates[0].gate, ir.target);
    }
  }

  // ---------------------------------------------------------------- one gate

  ghost predicate Visible(s: string) {
    forall i :: 0 <= i < |s| ==> ' ' <= s[i] <= '~'
  }

  lemma VisibleLine(s: string)
    requires Visible(s) && s != "" && s[0] != ' ' && s[|s| - 1] != ' '
    ensures OneLine(s) && Trim(s)
  {
  }

  lemma FormatVisible(n: Number)
    requires Canonical(n)
    ensures Visible(Format(n)) && All(NotClose, Format(n)) && Format(n) != ""
    ensures forall i :: 0 <= i < |Format(n)| ==> Format(n)[i] != ',' && !IsBlank(Format(n)[i])
  {
    FormatNumeric(n);
    hide Format;
  }

  lemma {:induction false} SplitOne(s: string)
    requires forall i :: 0 <= i < |s| ==> s[i] != ','
    ensures Split(s) == [s]
    decreases |s|
  {
    if s != "" {
      SplitOne(s[1..]);
      assert [s[0]] + s[1..] == s;
    }
  }

  lemma ReadsOne<F>(fl: Floats<F>, s: string, n: Number)
    requires Strip(s) == s && ReadFloat(s) == Some(n)
    ensures ReadParams(fl, [s]) == Some([fl.nearest(n)])
  {
    hide ReadFloat, Strip;
    assert [s][0] == s && [s][1..] == [];
    assert ReadParams(fl, []) == Some([]);
    assert [fl.nearest(n)] + [] == [fl.nearest(n)];
  }

  /** A printed parameter is read back rounded. */
  lemma ParamReads<F>(fl: Floats<F>, x: F)
    ensures ParamsFrom(fl, Some(ParamText(fl, x))) == Some([fl.Rounded(x)])
  {
    var s := ParamText(fl, x);
    FormatVisible(fl.round15(x));
    FormatRoundTrip(fl.round15(x));
    hide Format, ReadFloat;
    SplitOne(s);
    StripTrim(s);
    ReadsOne(fl, s, fl.round15(x));
    hide Strip, ReadParams, Split;
  }

  lemma QubitsRead(qubits: seq<int>)
    requires Nats(qubits)
    ensures QubitsFrom(Refs(qubits)) == qubits
  {
    forall i | 0 <= i < |qubits| ensures QubitsFrom(Refs(qubits))[i] == qubits[i] {
      NatTextFacts(qubits[i]);
    }
  }

  /** The text of a gate: its printed name and its argument, if it has one. */
  ghost predicate PrintedAs<F>(
    fl: Floats<F>, op: GateOp<F>, line: string, name: string, args: Option<string>, params: seq<F>)
  {
    && GateName(name)
    && (args.None? ==> line == Plainly(name, op.qubits) && params == [])
    && (args.Some? ==>
          line == Parametrised(name, args.value, op.qubits) && |params| == 1 && args.value == ParamText(fl, params[0]))
  }

  lemma JoinOne<F>(fl: Floats<F>, params: seq<F>)
    requires |params| == 1
    ensures Join(ParamTexts(fl, params), ", ") == ParamText(fl, params[0])
  {
    hide ParamText;
  }

  lemma PrintedForm<F>(fl: Floats<F>, op: GateOp<F>, target: string)
    returns (name: string, args: Option<string>, params: seq<F>)
    requires WellShaped(op) && PrintGate(fl, op, target).Some?
    ensures PrintedAs(fl, op, PrintGate(fl, op, target).value, name, args, params)
    ensures op.gate in {RX, RY, RZ, VirtualZ} ==> params == op.params
    ensures op.gate == YMinus90 ==> params == [fl.minusHalfPi] && name == "ry" && target == "cnot"
    ensures op.gate in {CZ, ID, X90, CNOT} ==> args.None?
    ensures target == "cz" && op.gate != VirtualZ ==> CzGate(name) == Some(op.gate)
    ensures target == "cz" || target == "cnot"
    ensures target == "cnot" && op.gate != YMinus90 ==> CnotGate(name) == Some(op.gate)
  {
    if op.gate in {RX, RY, RZ, VirtualZ} { JoinOne(fl, op.params); }
    hide Plainly, Parametrised, ParamText, ParamTexts, Join;
    name := match op.gate
      case RX => "rx" case RY => "ry" case RZ => "rz" case CZ => "cz" case ID => "id" case X90 => "sx"
      case YMinus90 => "ry" case VirtualZ => "rz" case CNOT => "cx" case _ => "";
    if op.gate in {RX, RY, RZ, VirtualZ} {
      params := op.params;
      args := Some(ParamText(fl, op.params[0]));
    } else if op.gate == YMinus90 {
      params := [fl.minusHalfPi];
      args := Some(ParamText(fl, fl.minusHalfPi));
    } else {
      params := [];
      args := None;
    }
  }

  lemma FormMatches<F>(fl: Floats<F>, op: GateOp<F>, line: string, name: string, args: Option<string>, params: seq<F>)
    requires PrintedAs(fl, op, line, name, args, params) && op.qubits != [] && Nats(op.qubits)
    ensures MatchGate(line) == Some(GateText(name, args, Refs(op.qubits)))
    ensures GateLine(line)
  {
    NameIsWord(name);
    if args.None? {
      PlainMatches(name, op.qubits);
      PlainText(name, op.qubits);
    } else {
      FormatVisible(fl.round15(params[0]));
      ParametrisedMatches(name, args.value, op.qubits);
      ParametrisedText(name, args.value, op.qubits);
    }
    hide MatchGate, Plainly, Parametrised, Format, OperandsText, Refs;
    assert line[..2] == name;
  }

  lemma FormReads<F>(fl: Floats<F>, args: Option<string>, params: seq<F>)
    requires args.None? ==> params == []
    requires args.Some? ==> |params| == 1 && args.value == ParamText(fl, params[0])
    ensures ParamsFrom(fl, args) == Some(RoundAll(fl, params))
  {
    hide ParamText, ReadParams, Split;
    if args.Some? {
      ParamReads(fl, params[0]);
      assert RoundAll(fl, params) == [fl.Rounded(params[0])];
      hide ParamsFrom;
    } else {
      assert RoundAll(fl, params) == [];
    }
  }

  lemma ReadsBack<F>(fl: Floats<F>, op: GateOp<F>, target: string, name: string, params: seq<F>)
    requires fl.HalfPiSurvives() && WellShaped(op)
    requires target == "cz" || target == "cnot"
    requires op.gate in {RX, RY, RZ, VirtualZ} ==> params == op.params
    requires op.gate == YMinus90 ==> params == [fl.minusHalfPi] && name == "ry" && target == "cnot"
    requires target == "cz" ==> CzGate(name) == Some(op.gate)
    requires target == "cnot" && op.gate != YMinus90 ==> CnotGate(name) == Some(op.gate)
    ensures ReadGate(fl, name, RoundAll(fl, params), op.qubits, target) == Ok(NormGate(fl, op))
  {
    if op.gate == YMinus90 {
      assert RoundAll(fl, params)[0] == fl.Rounded(fl.minusHalfPi);
      assert RoundAll(fl, op.params) == [];
    }
    if ParamsOf(op.gate) == 0 { assert RoundAll(fl, op.params) == []; }
    hide RoundAll;
  }

  lemma PrintedIsGateLine<F>(fl: Floats<F>, op: GateOp<F>, target: string)
    requires WellShaped(op) && Nats(op.qubits) && PrintGate(fl, op, target).Some?
    ensures GateLine(PrintGate(fl, op, target).value)
  {
    var name, args, params := PrintedForm(fl, op, target);
    hide PrintGate, GateLine;
    FormMatches(fl, op, PrintGate(fl, op, target).value, name, args, params);
  }

  /** A printed gate is read back as itself, normalised. */
  lemma GateRoundTrip<F>(fl: Floats<F>, op: GateOp<F>, target: string)
    requires fl.HalfPiSurvives() && WellShaped(op) && Nats(op.qubits)
    requires LegalGates(target).Some? && op.gate in LegalGates(target).value && PrintGate(fl, op, target).Some?
    ensures var line := PrintGate(fl, op, target).value;
            && GateLine(line)
            && GateFrom(fl, MatchGate(line).value, target) == Ok(NormGate(fl, op))
  {
    hide PrintGate, MatchGate, ParamsFrom, QubitsFrom, Plainly, Parametrised, ParamText, Refs, GateLine, ReadGate,
      NormGate, RoundAll, CzGate, CnotGate, GateName, LegalGates;
    var line := PrintGate(fl, op, target).value;
    var name, args, params := PrintedForm(fl, op, target);
    CzHasNoVirtualZ(op, target);
    FormMatches(fl, op, line, name, args, params);
    FormReads(fl, args, params);
    QubitsRead(op.qubits);
    ReadsBack(fl, op, target, name, params);
  }

  lemma CzHasNoVirtualZ<F>(op: GateOp<F>, target: string)
    requires LegalGates(target).Some? && op.gate in LegalGates(target).value
    ensures target == "cz" ==> op.gate != VirtualZ && op.gate != YMinus90
  {
  }

  lemma OperandsVisible(qubits: seq<int>)
    requires Nats(qubits)
    ensures Visible(OperandsText(qubits))
  {
    if qubits == [] {
    } else {
      OperandsAre(qubits);
      QubitVisible(qubits[0]);
      TailVisible(qubits[1..]);
      hide OperandsText, QubitText, TailText;
    }
  }

  lemma QubitVisible(q: nat)
    ensures Visible(QubitText(q))
  {
    NatTextFacts(q);
    assert Visible(NatText(q));
    hide NatText, IntText;
  }

  lemma {:induction false} TailVisible(qubits: seq<int>)
    requires Nats(qubits)
    ensures Visible(TailText(qubits))
    decreases |qubits|
  {
    if qubits != [] {
      QubitVisible(qubits[0]);
      TailVisible(qubits[1..]);
      hide QubitText;
    }
  }

  lemma Concat(a: string, b: string)
    requires Visible(a) && Visible(b)
    ensures Visible(a + b)
  {
  }

  lemma PlainIsLine(name: string, qubits: seq<int>)
    requires GateName(name) && Nats(qubits)
    ensures OneLine(Plainly(name, qubits)) && Trim(Plainly(name, qubits))
  {
    var c := OperandsText(qubits) + ";";
    OperandsVisible(qubits);
    NameIsWord(name);
    PlainText(name, qubits);
    hide Plainly, OperandsText;
    var line := Plainly(name, qubits);
    assert Visible(name);
    Concat(" ", c);
    Concat(name, " " + c);
    assert line[0] == name[0] && line[|line| - 1] == ';';
    VisibleLine(line);
  }

  lemma PlainIsGateLine(name: string, qubits: seq<int>)
    requires GateName(name) && qubits != [] && Nats(qubits)
    ensures GateLine(Plainly(name, qubits))
  {
    NameIsWord(name);
    PlainMatches(name, qubits);
    PlainText(name, qubits);
    hide MatchGate, Plainly, OperandsText, Refs;
    assert Plainly(name, qubits)[..2] == name;
  }

  lemma GateLineIsLine<F>(fl: Floats<F>, op: GateOp<F>, target: string)
    requires WellShaped(op) && Nats(op.qubits) && PrintGate(fl, op, target).Some?
    ensures OneLine(PrintGate(fl, op, target).value) && Trim(PrintGate(fl, op, target).value)
  {
    var line := PrintGate(fl, op, target).value;
    var name, args, params := PrintedForm(fl, op, target);
    OperandsVisible(op.qubits);
    NameIsWord(name);
    if args.None? { PlainText(name, op.qubits); } else { ParametrisedText(name, args.value, op.qubits); }
    if args.Some? { FormatVisible(fl.round15(params[0])); }
    hide PrintGate, Plainly, Parametrised, OperandsText, Format;
    var c := OperandsText(op.qubits) + ";";
    assert Visible(name);
    assert Visible(line) by {
      Concat(" ", c);
      if args.None? {
        Concat(name, " " + c);
      } else {
        Concat(")", " " + c);
        Concat(args.value, ")" + (" " + c));
        Concat("(", args.value + (")" + (" " + c)));
        Concat(name, "(" + (args.value + (")" + (" " + c))));
      }
    }
    assert line[0] == name[0] && line[|line| - 1] == ';';
    VisibleLine(line);
  }
}
