/** Whole programs as they are printed, and the characters texts are made of. */
module Samples {
  import opened Prelude
  import opened Text
  import opened Numbers
  import opened Ir
  import opened Qasm

  /** The classes of the patterns by their ASCII codes. */
  lemma CharacterClasses(c: char)
    ensures In(Blank, c) <==> c as int in {9, 10, 11, 12, 13, 28, 29, 30, 31, 32}
    ensures !In(LineBody, c) <==> c as int in {10, 11, 12, 13, 28, 29, 30}
    ensures In(Digit, c) <==> 48 <= c as int <= 57
    ensures In(Version, c) <==> 48 <= c as int <= 57 || c as int == 46
    ensures In(Word, c) <==>
            48 <= c as int <= 57 || 65 <= c as int <= 90 || c as int == 95 || 97 <= c as int <= 122
    ensures In(NotQuote, c) <==> c as int != 34
    ensures In(NotClose, c) <==> c as int != 41
  {
  }

  lemma SmallNumbers()
    ensures IntText(0) == "0" && IntText(1) == "1" && IntText(2) == "2" && IntText(12) == "12" && IntText(30) == "30"
  {
    assert NatText(1) == "1" && NatText(3) == "3";
    assert NatText(12) == "12" && NatText(30) == "30";
  }

  lemma QubitSamples()
    ensures QubitText(0) == "q[0]" && QubitText(1) == "q[1]" && QubitText(12) == "q[12]"
    ensures OperandsText([0]) == "q[0]" && OperandsText([1]) == "q[1]" && OperandsText([12]) == "q[12]"
    ensures OperandsText([0, 12]) == "q[0], q[12]"
  {
    SmallNumbers();
    hide IntText;
    assert "q[" + "0" + "]" == "q[0]" && "q[" + "1" + "]" == "q[1]" && "q[" + "12" + "]" == "q[12]";
    hide QubitText;
    assert QubitTexts([0]) == ["q[0]"] && QubitTexts([1]) == ["q[1]"] && QubitTexts([12]) == ["q[12]"];
    assert QubitTexts([0, 12]) == ["q[0]", "q[12]"] && ["q[0]", "q[12]"][1..] == ["q[12]"];
    assert Join(["q[12]"], ", ") == "q[12]";
    assert "q[0]" + ", " + "q[12]" == "q[0], q[12]";
  }

  lemma PlainLine(name: string, qubits: seq<int>, line: string)
    requires name + " " + OperandsText(qubits) + ";" == line
    ensures Plainly(name, qubits) == line
  {
  }

  lemma AngleLine(name: string, args: string, operands: string, qubits: seq<int>)
    requires OperandsText(qubits) == operands
    ensures Parametrised(name, args, qubits) == (name + "(") + args + (") " + operands + ";")
  {
    hide OperandsText;
  }

  /** One gate of each kind for the target cz. */
  lemma CzLines<F>(fl: Floats<F>, x: F)
    ensures PrintGate(fl, GateOp(RX, [0], [x]), "cz") == Some("rx(" + ParamText(fl, x) + ") q[0];")
    ensures PrintGate(fl, GateOp(RY, [1], [x]), "cz") == Some("ry(" + ParamText(fl, x) + ") q[1];")
    ensures PrintGate(fl, GateOp(RZ, [12], [x]), "cz") == Some("rz(" + ParamText(fl, x) + ") q[12];")
    ensures PrintGate(fl, GateOp(CZ, [0, 12], []), "cz") == Some("cz q[0], q[12];")
    ensures PrintGate(fl, GateOp(ID, [1], [x]), "cz") == Some("id q[1];")
    ensures PrintGate(fl, GateOp(VirtualZ, [12], [x]), "cz") == Some("rz(" + ParamText(fl, x) + ") q[12];")
  {
    QubitSamples();
    hide OperandsText, Plainly, Parametrised;
    assert ParamTexts(fl, [x]) == [ParamText(fl, x)];
    assert Join([ParamText(fl, x)], ", ") == ParamText(fl, x) by { hide ParamText; }
    hide ParamText;
    assert "rx" + "(" == "rx(" && "ry" + "(" == "ry(" && "rz" + "(" == "rz(";
    assert ") " + "q[0]" + ";" == ") q[0];" && ") " + "q[1]" + ";" == ") q[1];" && ") " + "q[12]" + ";" == ") q[12];";
    AngleLine("rx", ParamText(fl, x), "q[0]", [0]);
    AngleLine("ry", ParamText(fl, x), "q[1]", [1]);
    AngleLine("rz", ParamText(fl, x), "q[12]", [12]);
    assert "cz" + " " + "q[0], q[12]" + ";" == "cz q[0], q[12];" && "id" + " " + "q[1]" + ";" == "id q[1];";
    PlainLine("cz", [0, 12], "cz q[0], q[12];");
    PlainLine("id", [1], "id q[1];");
  }

  /** One gate of each kind for the target cnot. */
  lemma CnotLines<F>(fl: Floats<F>, x: F)
    ensures PrintGate(fl, GateOp(X90, [0], []), "cnot") == Some("sx q[0];")
    ensures PrintGate(fl, GateOp(YMinus90, [1], []), "cnot") == Some("ry(" + ParamText(fl, fl.minusHalfPi) + ") q[1];")
    ensures PrintGate(fl, GateOp(VirtualZ, [12], [x]), "cnot") == Some("rz(" + ParamText(fl, x) + ") q[12];")
    ensures PrintGate(fl, GateOp(CNOT, [0, 12], []), "cnot") == Some("cx q[0], q[12];")
    ensures PrintGate(fl, GateOp(ID, [1], [x]), "cnot") == Some("id q[1];")
  {
    QubitSamples();
    hide OperandsText, Plainly, Parametrised, ParamText;
    assert "ry" + "(" == "ry(" && "rz" + "(" == "rz(";
    assert ") " + "q[1]" + ";" == ") q[1];" && ") " + "q[12]" + ";" == ") q[12];";
    AngleLine("ry", ParamText(fl, fl.minusHalfPi), "q[1]", [1]);
    AngleLine("rz", ParamText(fl, x), "q[12]", [12]);
    assert "sx" + " " + "q[0]" + ";" == "sx q[0];" && "id" + " " + "q[1]" + ";" == "id q[1];";
    assert "cx" + " " + "q[0], q[12]" + ";" == "cx q[0], q[12];";
    PlainLine("sx", [0], "sx q[0];");
    PlainLine("id", [1], "id q[1];");
    PlainLine("cx", [0, 12], "cx q[0], q[12];");
  }

  lemma OtherLines()
    ensures HEADER == "OPENQASM 3.0;" && INCLUDE == "include \"stdgates.inc\";"
    ensures QubitDeclText(30) == "qubit[30] q;" && QubitDeclText(1) == "qubit[1] q;" && BitDeclText(2) == "bit[2] c;"
    ensures MeasureText(0, 12) == "c[0] = measure q[12];" && MeasureText(1, 0) == "c[1] = measure q[0];"
  {
    SmallNumbers();
    hide IntText;
    assert "qubit[" + "30" + "] q;" == "qubit[30] q;" && "qubit[" + "1" + "] q;" == "qubit[1] q;";
    assert "bit[" + "2" + "] c;" == "bit[2] c;";
    assert "c[" + "0" + "] = measure q[" + "12" + "];" == "c[0] = measure q[12];";
    assert "c[" + "1" + "] = measure q[" + "0" + "];" == "c[1] = measure q[0];";
  }

  /** A program: header, include, registers, gates and measurements, in this order. */
  lemma PrintedLines<F>(fl: Floats<F>, metadata: Metadata)
    ensures PrintLines(
              fl, NativeGateIR("cz", 30, [GateOp(CZ, [0, 12], []), GateOp(ID, [1], [fl.zero])], [12, 0], metadata))
         == Some(["OPENQASM 3.0;", "include \"stdgates.inc\";", "qubit[30] q;", "bit[2] c;", "cz q[0], q[12];",
                  "id q[1];", "c[0] = measure q[12];", "c[1] = measure q[0];"])
    ensures PrintLines(fl, NativeGateIR("cz", 1, [], [], metadata))
         == Some(["OPENQASM 3.0;", "include \"stdgates.inc\";", "qubit[1] q;"])
  {
    var a, b := GateOp(CZ, [0, 12], []), GateOp(ID, [1], [fl.zero]);
    CzLines(fl, fl.zero);
    OtherLines();
    hide PrintGate, QubitDeclText, BitDeclText, MeasureText;
    assert [a, b][..1] == [a] && [a][..0] == [];
    assert PrintGates(fl, [a], "cz") == Some([] + ["cz q[0], q[12];"]);
    assert [] + ["cz q[0], q[12];"] == ["cz q[0], q[12];"];
    assert PrintGates(fl, [a, b], "cz") == Some(["cz q[0], q[12];"] + ["id q[1];"]);
    assert MeasureTexts([12, 0]) == ["c[0] = measure q[12];", "c[1] = measure q[0];"];
    assert MeasureTexts([]) == [];
    var ir := NativeGateIR("cz", 30, [a, b], [12, 0], metadata);
    assert Preamble(ir) + (["cz q[0], q[12];"] + ["id q[1];"]) + MeasureTexts([12, 0])
        == ["OPENQASM 3.0;", "include \"stdgates.inc\";", "qubit[30] q;", "bit[2] c;", "cz q[0], q[12];",
            "id q[1];", "c[0] = measure q[12];", "c[1] = measure q[0];"];
    var bare: NativeGateIR<F> := NativeGateIR("cz", 1, [], [], metadata);
    assert Preamble(bare) + [] + []
        == ["OPENQASM 3.0;", "include \"stdgates.inc\";", "qubit[1] q;"];
  }

  /** Each line ends with a newline, the last one too. */
  lemma PrintedText<F>(fl: Floats<F>, metadata: Metadata)
    ensures Print(fl, NativeGateIR("cz", 1, [], [], metadata))
         == Some("OPENQASM 3.0;\n" + ("include \"stdgates.inc\";\n" + "qubit[1] q;\n"))
  {
    PrintedLines(fl, metadata);
    hide PrintLines;
    var lines := ["OPENQASM 3.0;", "include \"stdgates.inc\";", "qubit[1] q;"];
    assert lines[1..] == ["include \"stdgates.inc\";", "qubit[1] q;"] && lines[1..][1..] == ["qubit[1] q;"];
    var tail := "include \"stdgates.inc\";" + "\n" + "qubit[1] q;";
    assert Join(lines[1..], "\n") == tail;
    assert Join(lines, "\n") == "OPENQASM 3.0;" + "\n" + tail;
    assert "OPENQASM 3.0;" + "\n" == "OPENQASM 3.0;\n" && "qubit[1] q;" + "\n" == "qubit[1] q;\n";
    assert "include \"stdgates.inc\";" + "\n" == "include \"stdgates.inc\";\n";
    assert tail + "\n" == "include \"stdgates.inc\";\n" + "qubit[1] q;\n";
    assert "OPENQASM 3.0;" + "\n" + tail + "\n" == "OPENQASM 3.0;\n" + (tail + "\n");
  }

  /** Every target has exactly one gate on two qubits; all others act on one. All take
      the rotations, with one angle each, and the identity with its duration. */
  lemma TargetsAreAlike(target: string)
    requires LegalGates(target).Some?
    ensures var legal := LegalGates(target).value;
            && {RX, RY, RZ, ID} <= legal
            && (forall g :: g in legal ==> QubitsOf(g) in {1, 2} && ParamsOf(g) in {0, 1})
            && (forall g, h :: g in legal && h in legal && QubitsOf(g) == 2 && QubitsOf(h) == 2 ==> g == h)
            && (exists g :: g in legal && QubitsOf(g) == 2)
            && ParamsOf(RX) == 1 && ParamsOf(RY) == 1 && ParamsOf(RZ) == 1 && ParamsOf(ID) == 1
  {
    var two := if target == "cz" then CZ else if target == "iswap" then ISWAP else if target == "pcz" then CP else CNOT;
    assert two in LegalGates(target).value && QubitsOf(two) == 2;
  }
}
