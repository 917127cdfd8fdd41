/**
 * The decision-diagram backend: `run` with its noise-model guard, the
 * job body `_run_job` (validation, conversion to OpenQASM, the controller
 * call, output check and result formatting), and the JSON encoder's
 * fallback for values the standard encoder cannot handle.
 */
module BddBackend {
  import opened Wrappers
  import opened Values
  import opened Qobj
  import opened TrimmedResult
  import QasmSimulator

  // ---------------------------------------------------------------------
  // Submitting a job

  /** What the job object is handed: the id, the qobj and the arguments
      of `run`, for `_run_job` to use later. */
  datatype Job = Job(jobId: string, qobj: QasmQobj, backendOptions: Value, noiseModel: Value, validate: bool)

  /** `run` as intended: any noise model is refused with
      `NoiseModelNotSupportedError`; otherwise a job is created under the
      fresh id `jobId` (a random UUID in the package). */
  function Run(qobj: QasmQobj, jobId: string, backendOptions: Value := Null,
               noiseModel: Value := Null, validate: bool := true): (r: Result<Job, Error>)
    ensures r.Failure? <==> noiseModel != Null
    ensures r.Failure? ==> r.error == NoiseModelNotSupported
    ensures r.Success? ==> r.value.jobId == jobId && r.value.qobj == qobj && r.value.validate == validate
    ensures r.Success? ==> r.value.noiseModel == Null && r.value.backendOptions == backendOptions
  {
    if noiseModel != Null then Failure(NoiseModelNotSupported)
    else Success(Job(jobId, qobj, backendOptions, noiseModel, validate))
  }

  /** `run` as written: the guard raises `NoiseModelNotSupportedError`, a
      name the module neither defines nor imports, so evaluating the
      `raise` fails with `NameError` instead. The job is the same. */
  function RunAsWritten(qobj: QasmQobj, jobId: string, backendOptions: Value := Null,
                        noiseModel: Value := Null, validate: bool := true): (r: Result<Job, Error>)
    ensures r.Failure? <==> Run(qobj, jobId, backendOptions, noiseModel, validate).Failure?
    ensures r.Failure? ==> r.error == NameError("NoiseModelNotSupportedError") &&
                           r.error != Run(qobj, jobId, backendOptions, noiseModel, validate).error
    ensures r.Success? ==> r == Run(qobj, jobId, backendOptions, noiseModel, validate)
  {
    if noiseModel != Null then Failure(NameError("NoiseModelNotSupportedError"))
    else Success(Job(jobId, qobj, backendOptions, noiseModel, validate))
  }

  // ---------------------------------------------------------------------
  // Semantic validation by backend class

  /** The backend classes: the base class, whose `_validate` does nothing,
      and the `qasm_simulator`, which overrides it. */
  datatype BackendKind = BaseBackend | QasmSimulatorBackend

  /** The backend's name and version, as its configuration gives them. */
  datatype BackendInfo = BackendInfo(kind: BackendKind, name: string, version: string)

  /** The warnings each backend's `_validate` emits for a qobj. */
  function SemanticWarnings(kind: BackendKind, qobj: QasmQobj): seq<string>
  {
    match kind
    case BaseBackend => []
    case QasmSimulatorBackend => QasmSimulator.Warnings(qobj.experiments)
  }

  /** `self._validate(...)`, dispatched on the backend class. The backend
      options and noise model it is also given are not read. */
  method SemanticValidate(kind: BackendKind, qobj: QasmQobj) returns (warnings: seq<string>)
    ensures warnings == SemanticWarnings(kind, qobj)
    ensures kind == BaseBackend ==> warnings == []
  {
    match kind
    case BaseBackend =>
      warnings := [];
    case QasmSimulatorBackend =>
      warnings := QasmSimulator.Validate(qobj);
  }

  // ---------------------------------------------------------------------
  // Controller output and result metadata

  /** `_validate_controller_output`: anything but a dictionary is a failed
      simulation; a dictionary passes unchanged. */
  function ValidateControllerOutput(output: Value): (r: Result<Value, Error>)
    ensures r.Success? <==> output.Dict?
    ensures r.Success? ==> r.value == output
    ensures r.Failure? ==> r.error == SimulationFailed
  {
    if output.Dict? then Success(output) else Failure(SimulationFailed)
  }

  /** A mutable Python dictionary. */
  class JsonDict {
    var entries: map<string, Value>

    constructor (entries: map<string, Value>)
      ensures this.entries == entries
    {
      this.entries := entries;
    }
  }

  const JobIdKey := "job_id"
  const DateKey := "date"
  const BackendNameKey := "backend_name"
  const BackendVersionKey := "backend_version"
  const TimeTakenKey := "time_taken"

  /** The keys `_format_results` adds. */
  const MetadataKeys: set<string> := {JobIdKey, DateKey, BackendNameKey, BackendVersionKey, TimeTakenKey}

  /** A result dictionary with the job's metadata stored under the five
      metadata keys; every other entry is kept. */
  function WithMetadata(m: map<string, Value>, jobId: string, date: string, backendName: string,
                        backendVersion: string, timeTaken: real): (out: map<string, Value>)
    ensures out.Keys == m.Keys + MetadataKeys
    ensures out[JobIdKey] == Str(jobId) && out[DateKey] == Str(date)
    ensures out[BackendNameKey] == Str(backendName) && out[BackendVersionKey] == Str(backendVersion)
    ensures out[TimeTakenKey] == Float(timeTaken)
    ensures forall k :: k in m && k !in MetadataKeys ==> out[k] == m[k]
  {
    m[JobIdKey := Str(jobId)][DateKey := Str(date)][BackendNameKey := Str(backendName)]
     [BackendVersionKey := Str(backendVersion)][TimeTakenKey := Float(timeTaken)]
  }

  /** `_format_results`: adds the metadata to `output` in place, then
      builds the result record from it; `from_dict` refuses an output with
      a `self` entry. */
  method FormatResults(jobId: string, output: JsonDict, timeTaken: real, date: string,
                       backendName: string, backendVersion: string) returns (r: Result<TrimResult, Error>)
    modifies output
    ensures output.entries == WithMetadata(old(output.entries), jobId, date, backendName, backendVersion, timeTaken)
    ensures r.Failure? <==> SelfKey in old(output.entries)
    ensures r.Success? ==> r.value.meta == WithDefaults(output.entries)
    ensures r.Success? && CountsKey in old(output.entries) && StatevectorKey in old(output.entries) ==>
      r.value.meta == output.entries
  {
    ghost var before := output.entries;
    output.entries := output.entries[JobIdKey := Str(jobId)];
    output.entries := output.entries[DateKey := Str(date)];
    output.entries := output.entries[BackendNameKey := Str(backendName)];
    output.entries := output.entries[BackendVersionKey := Str(backendVersion)];
    output.entries := output.entries[TimeTakenKey := Float(timeTaken)];
    r := FromDict(output.entries);
    if CountsKey in before && StatevectorKey in before {
      MetadataKeepsResultKeys(before, jobId, date, backendName, backendVersion, timeTaken);
    }
  }

  /** Adding metadata to a dictionary that has both `counts` and
      `statevector` leaves nothing for `from_dict` to fill in. */
  lemma MetadataKeepsResultKeys(m: map<string, Value>, jobId: string, date: string, backendName: string,
                                backendVersion: string, timeTaken: real)
    requires CountsKey in m && StatevectorKey in m
    ensures var out := WithMetadata(m, jobId, date, backendName, backendVersion, timeTaken);
      WithDefaults(out) == out
  {
    WithDefaultsUnchanged(WithMetadata(m, jobId, date, backendName, backendVersion, timeTaken));
  }

  /** The record `_run_job` returns for controller output `(counts,
      statevector)`. */
  function ResultRecord(counts: Value, statevector: Value, jobId: string, date: string,
                        info: BackendInfo, timeTaken: real): map<string, Value>
  {
    WithMetadata(map[CountsKey := counts, StatevectorKey := statevector],
                 jobId, date, info.name, info.version, timeTaken)
  }

  /** The record holds the controller's counts and statevector unchanged,
      next to exactly the five metadata entries. */
  lemma ResultRecordContents(counts: Value, statevector: Value, jobId: string, date: string,
                             info: BackendInfo, timeTaken: real)
    ensures var m := ResultRecord(counts, statevector, jobId, date, info, timeTaken);
      m.Keys == {CountsKey, StatevectorKey} + MetadataKeys &&
      m[CountsKey] == counts && m[StatevectorKey] == statevector &&
      WithDefaults(m) == m
  {
    var m := ResultRecord(counts, statevector, jobId, date, info, timeTaken);
    assert CountsKey !in MetadataKeys && StatevectorKey !in MetadataKeys;
    WithDefaultsUnchanged(m);
  }

  // ---------------------------------------------------------------------
  // The job body

  /** The observable steps of `_run_job`, in the order they happen. */
  datatype Step = SchemaCheck | SemanticCheck | QasmConversion | ControllerCall | OutputCheck | Formatting

  /** The steps `_run_job` takes: the two checks only when validating, a
      stop after a failed schema check or a qobj that is not exactly one
      circuit, otherwise through to formatting. */
  function ExpectedSteps(validate: bool, schemaValid: bool, experiments: nat): seq<Step>
  {
    if validate && !schemaValid then [SchemaCheck]
    else
      var checks := if validate then [SchemaCheck, SemanticCheck] else [];
      if experiments != 1 then checks + [QasmConversion]
      else checks + [QasmConversion, ControllerCall, OutputCheck, Formatting]
  }

  /** Whenever the controller is called: with validation on, both checks
      came first; with it off, neither ran. */
  lemma ChecksPrecedeController(validate: bool, schemaValid: bool, experiments: nat)
    ensures var steps := ExpectedSteps(validate, schemaValid, experiments);
      forall j :: 0 <= j < |steps| && steps[j] == ControllerCall ==>
        (validate ==> exists i1, i2 :: 0 <= i1 < i2 < j && steps[i1] == SchemaCheck && steps[i2] == SemanticCheck) &&
        (!validate ==> SchemaCheck !in steps && SemanticCheck !in steps)
  {
    var steps := ExpectedSteps(validate, schemaValid, experiments);
    if validate && ControllerCall in steps {
      assert steps[0] == SchemaCheck && steps[1] == SemanticCheck && steps[3] == ControllerCall;
    }
  }

  /** `_run_job`, after `run` has produced `job`. The schema verdict, the
      circuit's OpenQASM text, the controller, the clock readings and the
      date are inputs; the warnings `_validate` would log are returned. */
  method RunJob(job: Job, info: BackendInfo, schemaValid: bool, circuitQasm: Experiment -> string,
                controller: string -> (Value, Value), start: real, end: real, date: string)
    returns (r: Result<TrimResult, Error>, warnings: seq<string>, steps: seq<Step>)
    ensures steps == ExpectedSteps(job.validate, schemaValid, |job.qobj.experiments|)
    ensures warnings == if job.validate && schemaValid then SemanticWarnings(info.kind, job.qobj) else []
    ensures job.validate && !schemaValid ==> r == Failure(SchemaInvalid)
    ensures (!job.validate || schemaValid) && |job.qobj.experiments| != 1 ==> r == Failure(OneExperimentOnly)
    ensures (!job.validate || schemaValid) && |job.qobj.experiments| == 1 ==>
      var output := controller(circuitQasm(job.qobj.experiments[0]));
      r == Success(TrimResult(ResultRecord(output.0, output.1, job.jobId, date, info, end - start)))
  {
    steps := [];
    warnings := [];
    if job.validate {
      steps := steps + [SchemaCheck];
      if !schemaValid {
        r := Failure(SchemaInvalid);
        return;
      }
      steps := steps + [SemanticCheck];
      warnings := SemanticValidate(info.kind, job.qobj);
    }
    steps := steps + [QasmConversion];
    if |job.qobj.experiments| != 1 {
      r := Failure(OneExperimentOnly);
      return;
    }
    steps := steps + [ControllerCall, OutputCheck, Formatting];
    var result := Simulate(job.jobId, job.qobj.experiments[0], info, circuitQasm, controller, start, end, date);
    r := Success(result);
  }

  /** The part of `_run_job` after validation for a one-circuit qobj: the
      circuit's OpenQASM text goes to the controller, its two results are
      wrapped as `counts` and `statevector`, checked, and formatted. */
  method Simulate(jobId: string, experiment: Experiment, info: BackendInfo, circuitQasm: Experiment -> string,
                  controller: string -> (Value, Value), start: real, end: real, date: string)
    returns (result: TrimResult)
    ensures var output := controller(circuitQasm(experiment));
      result == TrimResult(ResultRecord(output.0, output.1, jobId, date, info, end - start))
  {
    var qasm := circuitQasm(experiment);
    var pair := controller(qasm);
    var output := WrapOutput(pair);
    var formatted := FormatResults(jobId, output, end - start, date, info.name, info.version);
    result := formatted.value;
  }

  /** The controller's pair as the dictionary `_run_job` builds, which
      then passes `_validate_controller_output`. */
  method WrapOutput(pair: (Value, Value)) returns (output: JsonDict)
    ensures fresh(output)
    ensures output.entries == map[CountsKey := pair.0, StatevectorKey := pair.1]
    ensures SelfKey !in output.entries && CountsKey in output.entries && StatevectorKey in output.entries
    ensures ValidateControllerOutput(Dict(output.entries)).Success?
  {
    output := new JsonDict(map[CountsKey := pair.0, StatevectorKey := pair.1]);
    var checked := ValidateControllerOutput(Dict(output.entries));
    assert checked.Success?;
  }

  // ---------------------------------------------------------------------
  // JSON encoding

  /** What `AerJSONEncoder.default` can find out about an object: its
      `tolist()` if it is an ndarray, its parts if it is a complex number,
      and the result of its `to_dict()` if it has one. */
  datatype PyObject = PyObject(ndarray: Option<Value>, complex: Option<(real, real)>, toDict: Option<Value>)

  /** `AerJSONEncoder.default`: the first of ndarray, complex number and
      `to_dict` that applies decides; anything else is not serialisable. */
  function EncodeDefault(obj: PyObject): (r: Result<Value, Error>)
    ensures obj.ndarray.Some? ==> r == Success(obj.ndarray.value)
    ensures obj.ndarray.None? && obj.complex.Some? ==>
      r == Success(List([Float(obj.complex.value.0), Float(obj.complex.value.1)]))
    ensures obj.ndarray.None? && obj.complex.None? && obj.toDict.Some? ==> r == Success(obj.toDict.value)
    ensures r.Failure? <==> obj.ndarray.None? && obj.complex.None? && obj.toDict.None?
    ensures r.Failure? ==> r.error.TypeError?
  {
    if obj.ndarray.Some? then Success(obj.ndarray.value)
    else if obj.complex.Some? then Success(List([Float(obj.complex.value.0), Float(obj.complex.value.1)]))
    else if obj.toDict.Some? then Success(obj.toDict.value)
    else Failure(TypeError("Object is not JSON serializable"))
  }

  /** Reads back a complex number written as `[real, imag]`. */
  function DecodeComplex(v: Value): (z: Option<(real, real)>)
    ensures z.Some? ==> v == List([Float(z.value.0), Float(z.value.1)])
  {
    if v.List? && |v.items| == 2 && v.items[0].Float? && v.items[1].Float? then
      Some((v.items[0].x, v.items[1].x))
    else None
  }

  /** A complex number survives encoding and decoding. */
  lemma ComplexRoundTrip(re: real, im: real)
    ensures var r := EncodeDefault(PyObject(None, Some((re, im)), None));
      r.Success? && DecodeComplex(r.value) == Some((re, im))
  {
  }

  /** Encoding a result record: it is neither an ndarray nor a complex
      number, so the encoder calls its `to_dict()` and the record's
      metadata is what gets serialised. */
  method EncodeResultRecord(r: TrimResult) returns (v: Result<Value, Error>)
    ensures v == Success(Dict(r.meta))
  {
    var d := ToDict(r);
    assert d == r.meta;
    v := EncodeDefault(PyObject(None, None, Some(Dict(d))));
  }
}
