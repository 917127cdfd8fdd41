/**
 * The `qasm_simulator` backend: its static configuration, the stub
 * controller with its fixed Bell-state result, and the semantic check
 * that warns about experiments with classical bits but no measurement.
 */
module QasmSimulator {
  import opened Wrappers
  import opened Values
  import opened Qobj

  /** `MAX_QUBIT_MEMORY`: the number of qubits the backend advertises. */
  const MaxQubitMemory := 30

  /** The gate names the backend knows. */
  datatype GateName =
    | U1 | U2 | U3 | CX | CZ | Id | X | Y
    | Z | H | S | Sdg | T | Tdg | Swap | CCX
    | CSwap | Unitary | Initialize | CU1 | CU2 | CU3 | MCX | MCY
    | MCZ | MCU1 | MCU2 | MCU3 | MCSwap | Multiplexer | Kraus | RoError

  /** The name as written in the configuration. */
  function NameText(n: GateName): string
  {
    match n
    case U1 => "u1"
    case U2 => "u2"
    case U3 => "u3"
    case CX => "cx"
    case CZ => "cz"
    case Id => "id"
    case X => "x"
    case Y => "y"
    case Z => "z"
    case H => "h"
    case S => "s"
    case Sdg => "sdg"
    case T => "t"
    case Tdg => "tdg"
    case Swap => "swap"
    case CCX => "ccx"
    case CSwap => "cswap"
    case Unitary => "unitary"
    case Initialize => "initialize"
    case CU1 => "cu1"
    case CU2 => "cu2"
    case CU3 => "cu3"
    case MCX => "mcx"
    case MCY => "mcy"
    case MCZ => "mcz"
    case MCU1 => "mcu1"
    case MCU2 => "mcu2"
    case MCU3 => "mcu3"
    case MCSwap => "mcswap"
    case Multiplexer => "multiplexer"
    case Kraus => "kraus"
    case RoError => "roerror"
  }

  /** One entry of the configuration's `gates` list. */
  datatype Gate = Gate(name: GateName, parameters: seq<string>, conditional: bool)

  /** The fields of `DEFAULT_CONFIGURATION`. */
  datatype Configuration = Configuration(
    backendName: string,
    backendVersion: string,
    nQubits: int,
    url: string,
    simulator: bool,
    local: bool,
    conditional: bool,
    openPulse: bool,
    memory: bool,
    maxShots: int,
    description: string,
    couplingMap: Option<seq<seq<int>>>,
    basisGates: seq<GateName>,
    gates: seq<Gate>)

  /** The `description` and `qasm_def` of each gate's table entry. */
  function GateDoc(n: GateName): (doc: (string, string))
  {
    match n
    case U1 => ("Single-qubit gate [[1, 0], [0, exp(1j*lam)]]",
      "gate u1(lam) q { U(0,0,lam) q; }")
    case U2 => ("Single-qubit gate [[1, -exp(1j*lam)], [exp(1j*phi), exp(1j*(phi+lam))]]/sqrt(2)",
      "gate u2(phi,lam) q { U(pi/2,phi,lam) q; }")
    case U3 => ("Single-qubit gate with three rotation angles",
      "gate u3(theta,phi,lam) q { U(theta,phi,lam) q; }")
    case CX => ("Two-qubit Controlled-NOT gate",
      "gate cx c,t { CX c,t; }")
    case CZ => ("Two-qubit Controlled-Z gate",
      "gate cz a,b { h b; cx a,b; h b; }")
    case Id => ("Single-qubit identity gate",
      "gate id a { U(0,0,0) a; }")
    case X => ("Single-qubit Pauli-X gate",
      "gate x a { U(pi,0,pi) a; }")
    case Y => ("Single-qubit Pauli-Y gate",
      "TODO")
    case Z => ("Single-qubit Pauli-Z gate",
      "TODO")
    case H => ("Single-qubit Hadamard gate",
      "TODO")
    case S => ("Single-qubit phase gate",
      "TODO")
    case Sdg => ("Single-qubit adjoint phase gate",
      "TODO")
    case T => ("Single-qubit T gate",
      "TODO")
    case Tdg => ("Single-qubit adjoint T gate",
      "TODO")
    case Swap => ("Two-qubit SWAP gate",
      "TODO")
    case CCX => ("Three-qubit Toffoli gate",
      "TODO")
    case CSwap => ("Three-qubit Fredkin (controlled-SWAP) gate",
      "TODO")
    case Unitary => ("N-qubit arbitrary unitary gate. The parameter is the N-qubit matrix to apply.",
      "unitary(matrix) q1, q2,...")
    case Initialize => ("N-qubit state initialize. Resets qubits then sets statevector to the parameter vector.",
      "initialize(vector) q1, q2,...")
    case CU1 => ("Two-qubit Controlled-u1 gate",
      "TODO")
    case CU2 => ("Two-qubit Controlled-u2 gate",
      "TODO")
    case CU3 => ("Two-qubit Controlled-u3 gate",
      "TODO")
    case MCX => ("N-qubit multi-controlled-X gate",
      "TODO")
    case MCY => ("N-qubit multi-controlled-Y gate",
      "TODO")
    case MCZ => ("N-qubit multi-controlled-Z gate",
      "TODO")
    case MCU1 => ("N-qubit multi-controlled-u1 gate",
      "TODO")
    case MCU2 => ("N-qubit multi-controlled-u2 gate",
      "TODO")
    case MCU3 => ("N-qubit multi-controlled-u3 gate",
      "TODO")
    case MCSwap => ("N-qubit multi-controlled-SWAP gate",
      "TODO")
    case Multiplexer => ("N-qubit multi-plexer gate. The input parameters are the gates for each value.",
      "TODO")
    case Kraus => ("N-qubit Kraus error instruction. The input parameters are the Kraus matrices.",
      "TODO")
    case RoError => ("N-bit classical readout error instruction. The input parameter is the readout error probability matrix.",
      "TODO")
  }

  /** `basis_gates`, in four parts of eight names. */
  const BasisGates: seq<GateName> := BasisA + BasisB + BasisC + BasisD

  const BasisA: seq<GateName> := [U1, U2, U3, CX, CZ, Id, X, Y]
  const BasisB: seq<GateName> := [Z, H, S, Sdg, T, Tdg, Swap, CCX]
  const BasisC: seq<GateName> := [Unitary, Initialize, CU1, CU2, CU3, CSwap, MCX, MCY]
  const BasisD: seq<GateName> := [MCZ, MCU1, MCU2, MCU3, MCSwap, Multiplexer, Kraus, RoError]

  /** The `gates` table, in four parts of eight entries. */
  const Gates: seq<Gate> := GatesA + GatesB + GatesC + GatesD

  const GatesA: seq<Gate> := [
    Gate(U1, ["lam"], true),
    Gate(U2, ["phi", "lam"], true),
    Gate(U3, ["theta", "phi", "lam"], true),
    Gate(CX, [], true),
    Gate(CZ, [], true),
    Gate(Id, [], true),
    Gate(X, [], true),
    Gate(Y, [], true)
  ]

  const GatesB: seq<Gate> := [
    Gate(Z, [], true),
    Gate(H, [], true),
    Gate(S, [], true),
    Gate(Sdg, [], true),
    Gate(T, [], true),
    Gate(Tdg, [], true),
    Gate(Swap, [], true),
    Gate(CCX, [], true)
  ]

  const GatesC: seq<Gate> := [
    Gate(CSwap, [], true),
    Gate(Unitary, ["matrix"], true),
    Gate(Initialize, ["vector"], false),
    Gate(CU1, ["lam"], true),
    Gate(CU2, ["phi", "lam"], true),
    Gate(CU3, ["theta", "phi", "lam"], true),
    Gate(MCX, [], true),
    Gate(MCY, [], true)
  ]

  const GatesD: seq<Gate> := [
    Gate(MCZ, [], true),
    Gate(MCU1, ["lam"], true),
    Gate(MCU2, ["phi", "lam"], true),
    Gate(MCU3, ["theta", "phi", "lam"], true),
    Gate(MCSwap, [], true),
    Gate(Multiplexer, ["mat1", "mat2", "..."], true),
    Gate(Kraus, ["mat1", "mat2", "..."], true),
    Gate(RoError, ["matrix"], false)
  ]

  /** `DEFAULT_CONFIGURATION`, with the package version as a parameter. */
  function DefaultConfiguration(version: string): (c: Configuration)
    ensures c.backendName == "qasm_simulator" && c.backendVersion == version
    ensures c.simulator && c.local && c.memory && !c.openPulse
    ensures c.couplingMap == None
  {
    Configuration(
      "qasm_simulator", version, MaxQubitMemory, "TODO",
      true, true, true, false, true, 100000,
      "A C++ simulator using BDD operations for qobj files",
      None, BasisGates, Gates)
  }

  /** The position in `basis_gates` of the k-th entry of the gate table:
      the orders agree except that the table lists `cswap` right after
      `ccx`, and `basis_gates` lists it after `cu3`. */
  function BasisIndex(k: nat): nat
  {
    if k < 16 then k else if k == 16 then 21 else if k <= 21 then k - 1 else k
  }

  /** `BasisIndex` is one-to-one onto the 32 positions. */
  function TableIndex(i: nat): (k: nat)
    requires i < 32
    ensures k < 32 && BasisIndex(k) == i
  {
    if i < 16 then i else if i == 21 then 16 else if i < 21 then i + 1 else i
  }

  lemma NamesA() ensures forall k :: 0 <= k < 8 ==> GatesA[k].name == BasisA[k] {}
  lemma NamesB() ensures forall k :: 0 <= k < 8 ==> GatesB[k].name == BasisB[k] {}
  lemma NamesC()
    ensures GatesC[0].name == BasisC[5]
    ensures forall k :: 1 <= k < 6 ==> GatesC[k].name == BasisC[k - 1]
    ensures forall k :: 6 <= k < 8 ==> GatesC[k].name == BasisC[k]
  {}
  lemma NamesD() ensures forall k :: 0 <= k < 8 ==> GatesD[k].name == BasisD[k] {}

  /** Entry by entry, the gate table names the basis gates. */
  lemma TableOrder()
    ensures |Gates| == |BasisGates| == 32
    ensures forall k :: 0 <= k < 32 ==> Gates[k].name == BasisGates[BasisIndex(k)]
  {
    NamesA();
    NamesB();
    NamesC();
    NamesD();
    assert |GatesA| == |GatesB| == |GatesC| == |GatesD| == 8;
    assert |BasisA| == |BasisB| == |BasisC| == |BasisD| == 8;
    forall k | 0 <= k < 32
      ensures Gates[k].name == BasisGates[BasisIndex(k)]
    {
      if k < 8 {
        assert Gates[k] == GatesA[k] && BasisGates[k] == BasisA[k];
      } else if k < 16 {
        assert Gates[k] == GatesB[k - 8] && BasisGates[k] == BasisB[k - 8];
      } else if k < 24 {
        assert Gates[k] == GatesC[k - 16] && BasisGates[BasisIndex(k)] == BasisC[BasisIndex(k) - 16];
      } else {
        assert Gates[k] == GatesD[k - 24] && BasisGates[k] == BasisD[k - 24];
      }
    }
  }

  /** The position of a gate name in `basis_gates`. */
  function Ord(n: GateName): nat
  {
    match n
    case U1 => 0
    case U2 => 1
    case U3 => 2
    case CX => 3
    case CZ => 4
    case Id => 5
    case X => 6
    case Y => 7
    case Z => 8
    case H => 9
    case S => 10
    case Sdg => 11
    case T => 12
    case Tdg => 13
    case Swap => 14
    case CCX => 15
    case Unitary => 16
    case Initialize => 17
    case CU1 => 18
    case CU2 => 19
    case CU3 => 20
    case CSwap => 21
    case MCX => 22
    case MCY => 23
    case MCZ => 24
    case MCU1 => 25
    case MCU2 => 26
    case MCU3 => 27
    case MCSwap => 28
    case Multiplexer => 29
    case Kraus => 30
    case RoError => 31
  }

  lemma OrdA() ensures forall k :: 0 <= k < 8 ==> Ord(BasisA[k]) == k {}
  lemma OrdB() ensures forall k :: 0 <= k < 8 ==> Ord(BasisB[k]) == k + 8 {}
  lemma OrdC() ensures forall k :: 0 <= k < 8 ==> Ord(BasisC[k]) == k + 16 {}
  lemma OrdD() ensures forall k :: 0 <= k < 8 ==> Ord(BasisD[k]) == k + 24 {}

  /** `basis_gates` lists every gate at the position `Ord` gives it. */
  lemma BasisPositions()
    ensures |BasisGates| == 32
    ensures forall k :: 0 <= k < 32 ==> Ord(BasisGates[k]) == k
  {
    assert |BasisA| == |BasisB| == |BasisC| == |BasisD| == 8;
    OrdA();
    OrdB();
    OrdC();
    OrdD();
    forall k | 0 <= k < 32
      ensures Ord(BasisGates[k]) == k
    {
      if k < 8 {
        assert BasisGates[k] == BasisA[k];
      } else if k < 16 {
        assert BasisGates[k] == BasisB[k - 8];
      } else if k < 24 {
        assert BasisGates[k] == BasisC[k - 16];
      } else {
        assert BasisGates[k] == BasisD[k - 24];
      }
    }
  }

  /** `basis_gates` and the names in `gates` are the same 32 gates: both
      lists name each gate once, and they name the same gates. */
  lemma GateTable(version: string)
    ensures var c := DefaultConfiguration(version);
      |c.basisGates| == |c.gates| == 32 &&
      (forall n :: n in c.basisGates <==> exists k :: 0 <= k < |c.gates| && c.gates[k].name == n) &&
      (forall i, j :: 0 <= i < j < |c.basisGates| ==> c.basisGates[i] != c.basisGates[j]) &&
      (forall i, j :: 0 <= i < j < |c.gates| ==> c.gates[i].name != c.gates[j].name)
  {
    TableOrder();
    BasisPositions();
    forall i, j | 0 <= i < j < 32
      ensures Gates[i].name != Gates[j].name
    {
      assert BasisIndex(i) != BasisIndex(j);
      assert Ord(Gates[i].name) == BasisIndex(i) && Ord(Gates[j].name) == BasisIndex(j);
    }
    forall n | n in BasisGates
      ensures exists k :: 0 <= k < |Gates| && Gates[k].name == n
    {
      var i :| 0 <= i < 32 && BasisGates[i] == n;
      var k := TableIndex(i);
      assert Gates[k].name == n;
    }
  }

  /** Only `initialize` and `roerror` cannot be conditioned. */
  lemma UnconditionalGates(version: string)
    ensures var gates := DefaultConfiguration(version).gates;
      forall k :: 0 <= k < |gates| ==>
        (!gates[k].conditional <==> gates[k].name == Initialize || gates[k].name == RoError)
  {
  }

  /** The advertised qubit count is `MAX_QUBIT_MEMORY`, 30, and at most
      100000 shots are allowed. */
  lemma Limits(version: string)
    ensures DefaultConfiguration(version).nQubits == MaxQubitMemory == 30
    ensures DefaultConfiguration(version).maxShots == 100000
  {
  }

  function GateValue(g: Gate): Value
  {
    Dict(map[
      "name" := Str(NameText(g.name)),
      "parameters" := List(seq(|g.parameters|, k requires 0 <= k < |g.parameters| => Str(g.parameters[k]))),
      "conditional" := Bool(g.conditional),
      "description" := Str(GateDoc(g.name).0),
      "qasm_def" := Str(GateDoc(g.name).1)])
  }

  /** The configuration as the key/value mapping that backend filters
      query. */
  function ConfigurationDict(c: Configuration): map<string, Value>
  {
    map[
      "backend_name" := Str(c.backendName),
      "backend_version" := Str(c.backendVersion),
      "n_qubits" := Int(c.nQubits),
      "url" := Str(c.url),
      "simulator" := Bool(c.simulator),
      "local" := Bool(c.local),
      "conditional" := Bool(c.conditional),
      "open_pulse" := Bool(c.openPulse),
      "memory" := Bool(c.memory),
      "max_shots" := Int(c.maxShots),
      "description" := Str(c.description),
      "coupling_map" := (match c.couplingMap
                         case None => Null
                         case Some(edges) =>
                           List(seq(|edges|, i requires 0 <= i < |edges| =>
                             List(seq(|edges[i]|, j requires 0 <= j < |edges[i]| => Int(edges[i][j])))))),
      "basis_gates" := List(seq(|c.basisGates|, k requires 0 <= k < |c.basisGates| => Str(NameText(c.basisGates[k])))),
      "gates" := List(seq(|c.gates|, k requires 0 <= k < |c.gates| => GateValue(c.gates[k])))]
  }

  // ---------------------------------------------------------------------
  // The stub controller and its fixed result

  /** `bell_result['counts']`: 1024 shots of a Bell state. */
  const BellCounts: map<string, Value> := map["00" := Int(512), "11" := Int(512)]

  /** `bell_result['statevector']`: real parts, then imaginary parts. */
  const BellStatevector: Value :=
    List([List([Float(0.70710678118), Int(0), Int(0), Float(0.70710678118)]),
          List([Int(0), Int(0), Int(0), Int(0)])])

  const BellResult: Value := Dict(map["counts" := Dict(BellCounts), "statevector" := BellStatevector])

  /** `api_result`, the JSON text of `bell_result`. */
  const ApiResult: string :=
    "{\"counts\": {\"00\": 512, \"11\": 512}, \"statevector\": [[0.70710678118, 0, 0, 0.70710678118], [0, 0, 0, 0]]}"

  /** `bdd_controller`: the simulator is not there; every call answers with
      the same JSON text. */
  function BddController(qasm: string, useStatevector: Value, shots: Value): (result: string)
    ensures result == ApiResult
  {
    ApiResult
  }

  /** The controller's answer depends on none of its arguments. */
  lemma ControllerIgnoresArguments(q1: string, u1: Value, s1: Value, q2: string, u2: Value, s2: Value)
    ensures BddController(q1, u1, s1) == BddController(q2, u2, s2)
  {
  }

  /** The sum of the integer counts in a counts dictionary. */
  ghost function Shots(counts: map<string, Value>): int
    decreases |counts|
  {
    if counts == map[] then 0
    else
      var k :| k in counts;
      (if counts[k].Int? then counts[k].i else 0) + Shots(counts - {k})
  }

  lemma ShotsOfOne(a: string, x: int)
    ensures Shots(map[a := Int(x)]) == x
  {
    var m := map[a := Int(x)];
    assert m.Keys == {a};
    assert m - {a} == map[];
  }

  lemma {:induction false} ShotsOfTwo(a: string, x: int, b: string, y: int)
    requires a != b
    ensures Shots(map[a := Int(x), b := Int(y)]) == x + y
  {
    var m := map[a := Int(x), b := Int(y)];
    assert m - {a} == map[b := Int(y)];
    assert m - {b} == map[a := Int(x)];
    ShotsOfOne(a, x);
    ShotsOfOne(b, y);
    assert forall k | k in m :: (if m[k].Int? then m[k].i else 0) + Shots(m - {k}) == x + y;
  }

  function Pow2(n: nat): nat
  {
    if n == 0 then 1 else 2 * Pow2(n - 1)
  }

  /** The stub result describes 1024 shots on two qubits: every count key is
      a 2-bit string, and the statevector holds two lists (real and
      imaginary parts) of 2^2 entries each. */
  lemma BellResultShape()
    ensures Shots(BellCounts) == 1024
    ensures forall key :: key in BellCounts ==> |key| == 2 && forall c :: c in key ==> c == '0' || c == '1'
    ensures BellStatevector.List? && |BellStatevector.items| == 2
    ensures forall part :: part in BellStatevector.items ==> part.List? && |part.items| == Pow2(2)
  {
    ShotsOfTwo("00", 512, "11", 512);
  }

  // ---------------------------------------------------------------------
  // Semantic validation

  /** Some instruction is a measurement. */
  predicate Measures(ops: seq<Instruction>)
  {
    exists k :: 0 <= k < |ops| && ops[k].name == "measure"
  }

  /** An experiment with classical memory but no measurement: its counts
      would all be zero. */
  predicate NeedsWarning(e: Experiment)
  {
    e.memorySlots > 0 && !Measures(e.instructions)
  }

  /** The names of the experiments that need a warning, in order. */
  function Warnings(es: seq<Experiment>): seq<string>
    decreases |es|
  {
    if es == [] then []
    else Warnings(es[..|es| - 1]) + (if NeedsWarning(es[|es| - 1]) then [es[|es| - 1].name] else [])
  }

  /** `_validate`: for each experiment with memory slots, scan its
      instructions until the first `measure`, and warn when there is none.
      The warnings are returned instead of logged. */
  method Validate(qobj: QasmQobj) returns (warnings: seq<string>)
    ensures warnings == Warnings(qobj.experiments)
  {
    var experiments := qobj.experiments;
    warnings := [];
    var i := 0;
    while i < |experiments|
      invariant 0 <= i <= |experiments|
      invariant warnings == Warnings(experiments[..i])
    {
      var experiment := experiments[i];
      assert experiments[..i + 1][..i] == experiments[..i];
      if experiment.memorySlots > 0 {
        var ops := experiment.instructions;
        var noMeasure := true;
        var j := 0;
        while j < |ops|
          invariant 0 <= j <= |ops|
          invariant noMeasure <==> forall k :: 0 <= k < j ==> ops[k].name != "measure"
        {
          if !noMeasure {
            break;
          }
          if noMeasure && ops[j].name == "measure" {
            noMeasure := false;
          }
          j := j + 1;
        }
        if noMeasure {
          warnings := warnings + [experiment.name];
        }
      }
      i := i + 1;
    }
    assert experiments[..i] == experiments;
  }

  /** Warnings of a concatenation: those of each part, in order. */
  lemma {:induction false} WarningsAppend(a: seq<Experiment>, b: seq<Experiment>)
    ensures Warnings(a + b) == Warnings(a) + Warnings(b)
    decreases |b|
  {
    if b == [] {
      assert a + b == a;
    } else {
      var b' := b[..|b| - 1];
      assert (a + b)[..|a + b| - 1] == a + b';
      WarningsAppend(a, b');
    }
  }

  /** A name is warned about exactly when some experiment of that name
      needs a warning; there is at most one warning per experiment. */
  lemma {:induction false} WarningsExactly(es: seq<Experiment>)
    ensures |Warnings(es)| <= |es|
    ensures forall w :: w in Warnings(es) <==> exists i :: 0 <= i < |es| && NeedsWarning(es[i]) && es[i].name == w
    decreases |es|
  {
    if es != [] {
      var init := es[..|es| - 1];
      WarningsExactly(init);
      forall w | w in Warnings(es)
        ensures exists i :: 0 <= i < |es| && NeedsWarning(es[i]) && es[i].name == w
      {
        if w in Warnings(init) {
          var i :| 0 <= i < |init| && NeedsWarning(init[i]) && init[i].name == w;
          assert es[i] == init[i];
        }
      }
      forall w | exists i :: 0 <= i < |es| && NeedsWarning(es[i]) && es[i].name == w
        ensures w in Warnings(es)
      {
        var i :| 0 <= i < |es| && NeedsWarning(es[i]) && es[i].name == w;
        if i < |es| - 1 {
          assert init[i] == es[i];
        }
      }
    }
  }

  /** Experiments without classical memory never draw a warning, whatever
      their instructions. */
  lemma {:induction false} NoMemoryNoWarnings(es: seq<Experiment>)
    requires forall i :: 0 <= i < |es| ==> es[i].memorySlots == 0
    ensures Warnings(es) == []
    decreases |es|
  {
    if es != [] {
      NoMemoryNoWarnings(es[..|es| - 1]);
    }
  }
}
