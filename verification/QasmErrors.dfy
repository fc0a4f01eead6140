/** When an error leaves the parser without being a conversion error. */
module QasmErrors {
  import opened Prelude
  import opened Text
  import opened Numbers
  import opened Ir
  import opened Qasm
  import opened QasmLines
  import opened QasmLaws
  import opened QasmRoundTrip

  /** The gate a name stands for, if the target has one for it. */
  function Mapped<F>(fl: Floats<F>, name: string, params: seq<F>, target: string): Option<Gate> {
    if target == "cz" then CzGate(name)
    else if target != "cnot" then None
    else if CnotGate(name).Some? then CnotGate(name)
    else if name == "ry" && |params| == 1 && fl.isClose(params[0]) then Some(YMinus90)
    else None
  }

  /** The gate is built from the parameters of its text. */
  predicate TakesAngle(g: Gate) {
    g in {RX, RY, RZ, VirtualZ}
  }

  /** Some comma-separated part of the arguments is no float literal. */
  predicate Unreadable(args: Option<string>) {
    && args.Some?
    && args.value != ""
    && exists i :: 0 <= i < |Split(args.value)| && ReadFloat(Strip(Split(args.value)[i])).None?
  }

  /** The gate has a meaning for the target, but not with these operands and parameters. */
  predicate Misshapen<F>(fl: Floats<F>, g: GateText, target: string, params: seq<F>) {
    var m := Mapped(fl, g.name, params, target);
    m.Some? && (|g.refs| != QubitsOf(m.value) || (TakesAngle(m.value) && |params| != 1))
  }

  /** Reading this line raises something that is not wrapped. */
  predicate Raises<F>(fl: Floats<F>, target: string, line: string) {
    && !Ignored(line)
    && MatchDecl("qubit[", line).None?
    && MatchMeasure(line).None?
    && var g := MatchGate(line);
       && g.Some?
       && (Unreadable(g.value.args)
           || (ParamsFrom(fl, g.value.args).Some?
               && Misshapen(fl, g.value, target, ParamsFrom(fl, g.value.args).value)))
  }

  lemma {:induction false} PartsUnreadable<F>(fl: Floats<F>, parts: seq<string>)
    ensures ReadParams(fl, parts).None? <==> exists i :: 0 <= i < |parts| && ReadFloat(Strip(parts[i])).None?
    decreases |parts|
  {
    hide ReadFloat, Strip;
    if parts != [] {
      PartsUnreadable(fl, parts[1..]);
      if i :| 0 <= i < |parts| && ReadFloat(Strip(parts[i])).None? {
        if i > 0 { assert parts[1..][i - 1] == parts[i]; }
      }
      if i :| 0 <= i < |parts[1..]| && ReadFloat(Strip(parts[1..][i])).None? {
        assert parts[i + 1] == parts[1..][i];
      }
    }
  }

  lemma ArgsUnreadable<F>(fl: Floats<F>, args: Option<string>)
    ensures ParamsFrom(fl, args).None? <==> Unreadable(args)
  {
    hide ReadParams, ReadFloat, Strip, Split;
    if args.Some? && args.value != "" { PartsUnreadable(fl, Split(args.value)); }
  }

  lemma ShapeRaises<F>(fl: Floats<F>, g: GateText, target: string, params: seq<F>, qubits: seq<int>)
    requires |qubits| == |g.refs|
    ensures ReadGate(fl, g.name, params, qubits, target).Unwrapped? <==> Misshapen(fl, g, target, params)
  {
  }

  /** A line raises exactly when its gate text is unreadable or misshapen, whatever was read before. */
  lemma LineRaises<F>(fl: Floats<F>, target: string, acc: Gathered<F>, line: string)
    ensures ReadLine(fl, target, acc, line).Unwrapped? <==> Raises(fl, target, line)
  {
    hide MatchDecl, MatchMeasure, MatchGate, Ignored, NatValue, ReadGate, Misshapen, Unreadable, ParamsFrom, QubitsFrom;
    var g := MatchGate(line);
    if g.Some? {
      ArgsUnreadable(fl, g.value.args);
      var params := ParamsFrom(fl, g.value.args);
      if params.Some? { ShapeRaises(fl, g.value, target, params.value, QubitsFrom(g.value.refs)); }
    }
  }

  /** The first line at which reading stops is one that raises. */
  ghost predicate StopsAt<F>(fl: Floats<F>, target: string, acc: Gathered<F>, lines: seq<string>, i: nat)
    requires i < |lines|
  {
    ReadLines(fl, target, acc, lines[..i]).Ok? && Raises(fl, target, Strip(lines[i]))
  }

  ghost predicate Stops<F>(fl: Floats<F>, target: string, acc: Gathered<F>, lines: seq<string>) {
    exists i :: 0 <= i < |lines| && StopsAt(fl, target, acc, lines, i)
  }

  lemma {:induction false} LinesRaise<F>(fl: Floats<F>, target: string, acc: Gathered<F>, lines: seq<string>)
    ensures ReadLines(fl, target, acc, lines).Unwrapped? <==> Stops(fl, target, acc, lines)
    decreases |lines|
  {
    hide ReadLine, Raises, Strip;
    if lines != [] {
      var line, rest := Strip(lines[0]), lines[1..];
      var read := ReadLine(fl, target, acc, line);
      LineRaises(fl, target, acc, line);
      assert lines[..0] == [];
      if read.Ok? {
        LinesRaise(fl, target, read.value, rest);
        forall i | 0 <= i < |rest|
          ensures StopsAt(fl, target, read.value, rest, i) == StopsAt(fl, target, acc, lines, i + 1)
        {
          assert rest[i] == lines[i + 1];
          assert lines[..i + 1][0] == lines[0] && lines[..i + 1][1..] == rest[..i];
        }
        if i :| 0 <= i < |lines| && StopsAt(fl, target, acc, lines, i) {
          assert i > 0;
          assert StopsAt(fl, target, read.value, rest, i - 1);
        }
      } else {
        forall i | 0 < i < |lines| ensures !StopsAt(fl, target, acc, lines, i) {
          assert lines[..i][0] == lines[0];
        }
        assert read.Unwrapped? <==> StopsAt(fl, target, acc, lines, 0);
      }
    }
  }

  /** An error that is no conversion error leaves the parser if and only if, with all
      lines before it read, some line is a gate whose arguments are no floats or
      whose gate has another number of operands or parameters. Every other
      failure is a conversion error, as documented. */
  lemma UnwrappedExactly<F>(fl: Floats<F>, text: string, target: string, metadata: Metadata)
    ensures Parse(fl, text, target, metadata).Unwrapped?
            <==> Stops(fl, target, Gathered(None, [], []), SplitLines(Strip(text)))
  {
    hide ReadLines, SplitLines, Strip, Valid, Stops;
    var start: Gathered<F> := Gathered(None, [], []);
    var lines := SplitLines(Strip(text));
    LinesRaise(fl, target, start, lines);
    assert Parse(fl, text, target, metadata).Unwrapped? <==> ReadLines(fl, target, start, lines).Unwrapped?;
  }

  // ---------------------------------------------------------------- a text that raises

  /** The smallest gate line: `cz` with one operand. */
  lemma WitnessText()
    ensures Plainly("cz", [0]) == "cz q[0];"
  {
    var q: seq<int> := [0];
    OperandsAre(q);
    assert q[1..] == [] && TailText([]) == "";
    hide OperandsText, TailText;
    assert IntText(0) == "0";
    assert QubitText(0) + "" == "q[0]";
  }

  lemma WitnessRaises<F>(fl: Floats<F>, text: string)
    requires text == Plainly("cz", [0])
    ensures Raises(fl, "cz", text)
  {
    var q: seq<int> := [0];
    hide *;
    CzNeedsTwo(fl, q);
    PlainIsGateLine("cz", q);
    OnlyGate(text);
    OnlyIgnored(text, GateCall);
    NotOnly(text, GateCall);
    PlainMatches("cz", q);
    RaisesBy(fl, text, GateText("cz", None, Refs(q)));
  }

  lemma CzNeedsTwo<F>(fl: Floats<F>, q: seq<int>)
    requires q == [0]
    ensures GateName("cz") && q != [] && Nats(q)
    ensures Misshapen(fl, GateText("cz", None, Refs(q)), "cz", [])
    ensures ParamsFrom(fl, None) == Some([])
  {
  }

  lemma RaisesBy<F>(fl: Floats<F>, line: string, g: GateText)
    requires !Ignored(line) && MatchDecl("qubit[", line).None? && MatchMeasure(line).None? && MatchGate(line) == Some(g)
    requires g.args.None? && ParamsFrom(fl, None) == Some([]) && Misshapen(fl, g, "cz", [])
    ensures Raises(fl, "cz", line)
  {
    hide Ignored, MatchDecl, MatchMeasure, MatchGate, ParamsFrom, Misshapen, Unreadable;
  }

  lemma OneLineText(text: string)
    requires OneLine(text) && Trim(text)
    ensures Strip(text) == text && SplitLines(text) == [text]
  {
    StripTrim(text);
    hide Strip, SplitLines;
    SplitJoin([text]);
    assert Join([text], "\n") == text;
  }

  lemma LineThatRaises<F>(fl: Floats<F>, text: string, target: string, metadata: Metadata)
    requires OneLine(text) && Trim(text) && Raises(fl, target, text)
    ensures Parse(fl, text, target, metadata).Unwrapped?
  {
    var start: Gathered<F> := Gathered(None, [], []);
    OneLineText(text);
    var lines := SplitLines(Strip(text));
    assert lines[..0] == [] && ReadLines(fl, target, start, []).Ok?;
    hide Parse, Raises, SplitLines, Strip, ReadLines;
    assert StopsAt(fl, target, start, lines, 0);
    UnwrappedExactly(fl, text, target, metadata);
  }

  /** One operand too few for `cz`, whatever the floats are like. */
  lemma MissingOperandIsUnwrapped<F>(fl: Floats<F>, metadata: Metadata)
    ensures Parse(fl, "cz q[0];", "cz", metadata).Unwrapped?
  {
    hide *;
    WitnessText();
    var q: seq<int> := [0];
    CzNeedsTwo(fl, q);
    PlainIsLine("cz", q);
    WitnessRaises(fl, Plainly("cz", q));
    LineThatRaises(fl, Plainly("cz", q), "cz", metadata);
  }
}
