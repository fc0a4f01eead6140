/** The native-gate intermediate representation and its validators. */
module Ir {
  import opened Prelude

  datatype Gate = RX | RY | RZ | CZ | ISWAP | CP | ID | X90 | YMinus90 | VirtualZ | CNOT

  /** `GATE_SPECS` */
  function QubitsOf(g: Gate): nat {
    match g case CZ => 2 case ISWAP => 2 case CP => 2 case CNOT => 2 case _ => 1
  }

  function ParamsOf(g: Gate): nat {
    match g case RX => 1 case RY => 1 case RZ => 1 case CP => 1 case ID => 1 case VirtualZ => 1 case _ => 0
  }

  /** `LEGAL_GATES`; None for an unknown target. */
  function LegalGates(target: string): Option<set<Gate>> {
    if target == "cz" then Some({RX, RY, RZ, CZ, ID})
    else if target == "iswap" then Some({RX, RY, RZ, ISWAP, ID})
    else if target == "pcz" then Some({RX, RY, RZ, CP, ID})
    else if target == "cnot" then Some({RX, RY, RZ, X90, YMinus90, VirtualZ, CNOT, ID})
    else None
  }

  datatype GateOp<F> = GateOp(gate: Gate, qubits: seq<int>, params: seq<F>)

  /** `GateOp.validate_gate_shape` */
  predicate WellShaped<F>(op: GateOp<F>) {
    |op.qubits| == QubitsOf(op.gate) && |op.params| == ParamsOf(op.gate)
  }

  datatype Metadata = Metadata(sourceHash: string, compiledAt: string, compilerVersion: string, optimizationLevel: int)

  datatype NativeGateIR<F> = NativeGateIR(
    target: string, numQubits: int, gates: seq<GateOp<F>>, measurements: seq<int>, metadata: Metadata)

  predicate InRange(qubits: seq<int>, n: int) {
    forall i :: 0 <= i < |qubits| ==> 0 <= qubits[i] < n
  }

  predicate GatesFit<F>(gates: seq<GateOp<F>>, legal: set<Gate>, n: int) {
    forall i :: 0 <= i < |gates| ==> WellShaped(gates[i]) && gates[i].gate in legal && InRange(gates[i].qubits, n)
  }

  /** `NativeGateIR.validate_target` and `validate_consistency` */
  predicate Valid<F>(ir: NativeGateIR<F>) {
    && LegalGates(ir.target).Some?
    && 1 <= ir.numQubits <= 50
    && GatesFit(ir.gates, LegalGates(ir.target).value, ir.numQubits)
    && InRange(ir.measurements, ir.numQubits)
  }
}
