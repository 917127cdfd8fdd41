# qiskit_alcom_provider in Dafny

This is a model of the ALCom provider for Qiskit. The provider registers one
backend, `qasm_simulator`. That backend runs a one-circuit qobj through a
controller which is a stand-in for the BDD-based C++ simulator. The model
covers five parts of the package:

- **Provider** (`AlcomProvider.dfy`): the registry of backends, lookup by
  name, and `available_backends`, which narrows the registry once per
  key/value filter. `ALComProvider` becomes a class whose field is the
  registry.
- **Backend job pipeline** (`BddBackend.dfy`): `run` refuses a noise model
  and otherwise builds a job. `_run_job` runs the following steps in order
  and is modelled as a method that records each step:
  - schema check and semantic check, only when validating;
  - conversion to OpenQASM, which allows exactly one circuit;
  - the controller call;
  - the output check;
  - `_format_results`, which adds five metadata entries to the output
    dictionary in place (a small class holding a map).

  The JSON encoder's `default` hook is modelled too.
- **QASM simulator backend** (`QasmSimulator.dfy`):
  - its default configuration: name, limits, basis gates and the 32-entry
    gate table;
  - the canned Bell-state controller;
  - `_validate`, which warns about every circuit that has classical
    memory but no measurement. It is a method with the source's nested loop,
    early break and `no_measure` flag.
- **Trimmed result** (`TrimmedResult.dfy`): the result record. Construction
  and `to_dict`/`from_dict` are step-by-step methods proved against
  `WithDefaults`. The record's meaning is that a `counts` key and a
  `statevector` key are always present and default to `None`.
  `get_counts` and `get_statevector` are modelled with Python's
  subscripting and `zip` semantics, error paths included.
- **String splitter** (`SplitString.dfy`): the C++ `split` with its iterator
  loop, specified position by position, together with a corrected splitter.
  See Findings.

Python values are the `Values.Value` datatype: `None`, bool, int, float as
`real`, str, list, and dict as a map. Python exceptions become
`Values.Error` results. Dictionaries whose iteration order matters (the
backend registry and the filters) are sequences of pairs in insertion order.
The module version string (`__version__`), the clock, the date, the job
uuid, the schema verdict, the qobj-to-OpenQASM conversion and the controller
are parameters.

## Model

| member | source | states |
|---|---|---|
| Values.Get | qiskit_alcom_provider/alcom_provider.py:45 | `dict.get`: a missing key gives `None`, a present key gives its value |
| Values.PyEq | qiskit_alcom_provider/alcom_provider.py:45 | Python's `==` on these values: bool, int and float compare by numeric value (`True == 1`, `30 == 30.0`), lists element-wise, dicts key by key; a number equals only numbers, `None` and a string only themselves, and a list only a list of the same length |
| Values.PyEqReflexive | qiskit_alcom_provider/alcom_provider.py:45 | Python's `==` holds between a value and itself |
| Values.PyEqSymmetric | qiskit_alcom_provider/alcom_provider.py:45 | Python's `==` on these values does not depend on operand order |
| TrimmedResult.New | qiskit_alcom_provider/trimmed_result.py:15-20 | the new record holds `counts` and `statevector` with the given values (default `None`), plus every keyword argument unchanged, and no other key; a keyword is never `counts`, `statevector` or `self` |
| TrimmedResult.WithDefaults | qiskit_alcom_provider/trimmed_result.py:40-51 | what `from_dict` stores: exactly the input's keys plus `counts` and `statevector`; the input's values are kept; an absent `counts`/`statevector` becomes `None` |
| TrimmedResult.WithDefaultsUnchanged | qiskit_alcom_provider/trimmed_result.py:40-51 | `from_dict` reproduces its input exactly if and only if the input already has both `counts` and `statevector` |
| TrimmedResult.FromDict | qiskit_alcom_provider/trimmed_result.py:40-51 | fails with `TypeError` (multiple values for `self`) if and only if the data has a `self` entry; otherwise the copied data, passed as keywords, gives a record where both result keys are present and whose contents are `WithDefaults(data)` |
| TrimmedResult.ToDict | qiskit_alcom_provider/trimmed_result.py:31-38 | the returned dictionary has the same keys and values as the record |
| TrimmedResult.FromDictToDict | qiskit_alcom_provider/trimmed_result.py:31-51 | `to_dict(from_dict(d))` fails exactly when `d` has `self`; otherwise it is `WithDefaults(d)`, which equals `d` if and only if `d` has both result keys |
| TrimmedResult.GetCounts | qiskit_alcom_provider/trimmed_result.py:28-29 | on a record as the constructor leaves it, the `counts` subscript never raises and answers as `.get("counts")` |
| TrimmedResult.CountsAfterFromDict | qiskit_alcom_provider/trimmed_result.py:28-29 | `get_counts` after `from_dict(d)` is `d.get("counts")` |
| TrimmedResult.Zip | qiskit_alcom_provider/trimmed_result.py:25 | Python's `zip`: as long as the shorter input, with the k-th pair taken from both inputs |
| TrimmedResult.Subscript | qiskit_alcom_provider/trimmed_result.py:23-24 | `v[i]` on a list within range is its element; only a list or a str can be subscripted by an int successfully |
| TrimmedResult.Iterate | qiskit_alcom_provider/trimmed_result.py:25 | iterating a list yields its items; iteration succeeds exactly on a list, str or dict |
| TrimmedResult.GetStatevector | qiskit_alcom_provider/trimmed_result.py:22-26 | with two lists stored, the amplitudes pair the real and imaginary lists element-wise, up to the shorter one; a missing statevector (`None`) is a `TypeError`; fewer than two parts is an `IndexError` |
| TrimmedResult.StatevectorEqualLengths | qiskit_alcom_provider/trimmed_result.py:22-26 | real and imaginary parts of equal length give one amplitude per entry |
| TrimmedResult.NoStatevectorFails | qiskit_alcom_provider/trimmed_result.py:22-26 | a record built from data with no statevector fails `get_statevector` |
| QasmSimulator.DefaultConfiguration | qiskit_alcom_provider/qasm_simulator_alcom.py:75-297 | `qasm_simulator` at the module version: a local simulator with memory, no OpenPulse and no coupling map |
| QasmSimulator.Limits | qiskit_alcom_provider/qasm_simulator_alcom.py:74-85 | it advertises `MAX_QUBIT_MEMORY` = 30 qubits and at most 100000 shots |
| QasmSimulator.TableOrder | qiskit_alcom_provider/qasm_simulator_alcom.py:88-296 | the gate table and the basis-gate list both have 32 entries, in the same order except that `cswap` sits after `ccx` in the table and after `cu3` in the list |
| QasmSimulator.TableIndex | qiskit_alcom_provider/qasm_simulator_alcom.py:88-296 | every basis-gate position has a gate-table entry that maps to it |
| QasmSimulator.GateTable | qiskit_alcom_provider/qasm_simulator_alcom.py:88-296 | `basis_gates` and the table's names are the same set of 32 names: each list has 32 entries, no name repeats in either, and a name is a basis gate if and only if the table has an entry for it |
| QasmSimulator.BasisPositions | qiskit_alcom_provider/qasm_simulator_alcom.py:88-93 | `basis_gates` lists each gate at its own position, so no name appears twice |
| QasmSimulator.UnconditionalGates | qiskit_alcom_provider/qasm_simulator_alcom.py:94-296 | a gate cannot be conditioned if and only if it is `initialize` or `roerror` |
| QasmSimulator.BddController | qiskit_alcom_provider/qasm_simulator_alcom.py:61-66 | the controller returns the serialized Bell result whatever it is given |
| QasmSimulator.ControllerIgnoresArguments | qiskit_alcom_provider/qasm_simulator_alcom.py:64-66 | any two calls of the controller return the same text |
| QasmSimulator.ShotsOfOne | qiskit_alcom_provider/qasm_simulator_alcom.py:50-53 | the shot total of a one-outcome histogram is its count |
| QasmSimulator.ShotsOfTwo | qiskit_alcom_provider/qasm_simulator_alcom.py:50-53 | the shot total of a two-outcome histogram is the sum of its counts |
| QasmSimulator.BellResultShape | qiskit_alcom_provider/qasm_simulator_alcom.py:48-58 | the Bell result has 1024 shots over 2-bit outcomes, and its statevector has a real and an imaginary part of 2^2 entries each |
| QasmSimulator.Validate | qiskit_alcom_provider/qasm_simulator_alcom.py:305-325 | the loop emits, in circuit order, one warning per circuit with memory slots and no `measure` instruction |
| QasmSimulator.WarningsAppend | qiskit_alcom_provider/qasm_simulator_alcom.py:309-325 | the warnings of two batches of circuits are those of each batch, in order |
| QasmSimulator.WarningsExactly | qiskit_alcom_provider/qasm_simulator_alcom.py:309-325 | at most one warning per circuit; a name is warned about if and only if some circuit of that name has memory slots and no measurement |
| QasmSimulator.NoMemoryNoWarnings | qiskit_alcom_provider/qasm_simulator_alcom.py:312 | circuits without memory slots cause no warning |
| BddBackend.Run | qiskit_alcom_provider/bdd_backend.py:96-122 | `run` as intended: fails with `NoiseModelNotSupportedError` if and only if a noise model is given; otherwise the job carries the qobj, the fresh job id, the options and the validate flag |
| BddBackend.RunAsWritten | qiskit_alcom_provider/bdd_backend.py:114-122 | `run` as written: fails in exactly the same cases, but with `NameError` for the undefined exception name, never with the intended error; its jobs are those of `Run` |
| BddBackend.SemanticValidate | qiskit_alcom_provider/bdd_backend.py:191-193 | the base backend's `_validate` warns about nothing; the QASM simulator's gives its circuit warnings |
| BddBackend.ValidateControllerOutput | qiskit_alcom_provider/bdd_backend.py:183-189 | the output passes if and only if it is a dict, and is then unchanged; otherwise it is a simulation failure |
| BddBackend.WithMetadata | qiskit_alcom_provider/bdd_backend.py:170-180 | the output gains exactly `job_id`, `date`, `backend_name`, `backend_version` and `time_taken` with the given values; every other entry is kept |
| BddBackend.MetadataKeepsResultKeys | qiskit_alcom_provider/bdd_backend.py:170-181 | output that already has both result keys passes through `from_dict` unchanged after the metadata is added |
| BddBackend.FormatResults | qiskit_alcom_provider/bdd_backend.py:170-181 | the output dictionary is updated in place with the metadata; `from_dict` fails exactly when the output held `self`; otherwise the result is `from_dict` of the updated dictionary, and equals it when the output held both result keys |
| BddBackend.ResultRecordContents | qiskit_alcom_provider/bdd_backend.py:147-155 | a job's result holds the controller's counts and statevector unchanged, next to exactly the five metadata entries |
| BddBackend.ChecksPrecedeController | qiskit_alcom_provider/bdd_backend.py:138-147 | when the controller is called with validation on, the schema check and then the semantic check came first; with validation off, neither ran |
| BddBackend.RunJob | qiskit_alcom_provider/bdd_backend.py:135-168 | steps and warnings as the validate flag prescribes; a schema failure and a qobj without exactly one circuit are errors; otherwise the result is the controller's output for the circuit's OpenQASM, with metadata and the elapsed time |
| BddBackend.Simulate | qiskit_alcom_provider/bdd_backend.py:143-155 | the controller's pair becomes `counts`/`statevector`, passes the output check, and is formatted with metadata and `end - start` |
| BddBackend.WrapOutput | qiskit_alcom_provider/bdd_backend.py:148-153 | the new output dictionary holds exactly the controller's two results under `counts` and `statevector`, and passes the output check |
| BddBackend.EncodeDefault | qiskit_alcom_provider/bdd_backend.py:58-65 | an ndarray is encoded as its list, then a complex as `[real, imag]`, then an object with `to_dict` as that dict, in that order of precedence; anything else is a `TypeError` |
| BddBackend.DecodeComplex | qiskit_alcom_provider/bdd_backend.py:61-62 | no source line decodes; this is the inverse of the complex encoding, used to state `ComplexRoundTrip`: a decoded pair came from a two-float list |
| BddBackend.ComplexRoundTrip | qiskit_alcom_provider/bdd_backend.py:61-62 | decoding the encoding of a complex number gives it back |
| BddBackend.EncodeResultRecord | qiskit_alcom_provider/bdd_backend.py:63-64 | encoding a result record calls its `to_dict()` (`ToDict`) and yields the record's metadata dictionary |
| AlcomProvider.Provider.constructor | qiskit_alcom_provider/alcom_provider.py:30-33 | the registry holds exactly the `qasm_simulator` backend |
| AlcomProvider.Provider.GetBackend | qiskit_alcom_provider/alcom_provider.py:35-36 | succeeds if and only if the name is registered, returning the registered backend; otherwise `KeyError(name)` |
| AlcomProvider.Lookup | qiskit_alcom_provider/alcom_provider.py:36 | dictionary subscript over the registry entries: found if and only if the name is present; otherwise `KeyError` |
| AlcomProvider.Provider.Backends | qiskit_alcom_provider/alcom_provider.py:49-50 | every registered backend, in registry order, whatever the name and keyword arguments |
| AlcomProvider.Provider.AvailableBackends | qiskit_alcom_provider/alcom_provider.py:38-47 | the loop returns, in registry order, exactly the backends that match every filter under Python's `==` |
| AlcomProvider.Keep | qiskit_alcom_provider/alcom_provider.py:44-45 | one comprehension keeps exactly the entries whose configuration `.get(key)` equals the value under Python's `==` |
| AlcomProvider.Select | qiskit_alcom_provider/alcom_provider.py:42-47 | the selection is never longer than the registry |
| AlcomProvider.BackendsOf | qiskit_alcom_provider/alcom_provider.py:47 | `list(d.values())`: the backends, one per entry, in order |
| AlcomProvider.KeepSelect | qiskit_alcom_provider/alcom_provider.py:43-45 | applying one more filter to a selection equals selecting with that filter appended |
| AlcomProvider.SelectNoFilters | qiskit_alcom_provider/alcom_provider.py:42 | no filters (`None` or `{}`) keeps the whole registry |
| AlcomProvider.SelectExactly | qiskit_alcom_provider/alcom_provider.py:42-47 | an entry is selected if and only if it is registered and matches every filter |
| AlcomProvider.SelectOrderFree | qiskit_alcom_provider/alcom_provider.py:43-45 | the result does not depend on the order or repetition of the filters |
| AlcomProvider.MatchesBySet | qiskit_alcom_provider/alcom_provider.py:43-45 | matching more filters implies matching fewer |
| AlcomProvider.DefaultRegistryFilters | qiskit_alcom_provider/alcom_provider.py:33-47 | on the default registry, `local` and `simulator` true select `qasm_simulator`; more qubits than 30 selects nothing; a key the configuration lacks matches `None` |
| AlcomProvider.NumericFilters | qiskit_alcom_provider/alcom_provider.py:42-47 | on the default registry, `{"n_qubits": 30.0}` and `{"local": 1}` select `qasm_simulator`, as Python's numeric `==` does |
| SplitString.Split | qiskit_alcom_provider/split_string.cpp:9-21 | the loop returns the pieces ended by the delimiters it detects, and reads exactly the positions not right after a detected delimiter |
| SplitString.FirstBelow | qiskit_alcom_provider/split_string.cpp:12-17 | the piece start never passes the scan position, and it equals that position exactly when the delimiter was just detected |
| SplitString.PieceCount | qiskit_alcom_provider/split_string.cpp:11-16 | one piece per detected delimiter |
| SplitString.SplitEmptyIff | qiskit_alcom_provider/split_string.cpp:13-20 | the result is empty if and only if the string has no delimiter |
| SplitString.SplitDropsTail | qiskit_alcom_provider/split_string.cpp:13-20 | joining the pieces with the delimiter gives back a prefix of the string, and the dropped tail holds no delimiter after its first character |
| SplitString.PieceShape | qiskit_alcom_provider/split_string.cpp:14-17 | the first piece has no delimiter; each later piece is non-empty and has no delimiter after its first character |
| SplitString.ConsecutiveDelimiters | qiskit_alcom_provider/split_string.cpp:17 | a delimiter right after a detected one is never read, and it starts the next piece |
| SplitString.AppendLine | qiskit_alcom_provider/split_string.cpp:13-20 | appending a delimiter and a line adds one piece, the previous last line, and stays in bounds |
| SplitString.SplitDropsLastLine | qiskit_alcom_provider/split_string.cpp:13-20 | for non-empty lines without delimiters joined by it, the result is every line but the last |
| SplitString.MainQasmLines | qiskit_alcom_provider/split_string.cpp:26 | the example program is its nine instruction lines joined by newlines |
| SplitString.MainExample | qiskit_alcom_provider/split_string.cpp:26-28 | splitting the example program gives its first eight lines; the final measurement is dropped |
| SplitString.SkippedDelimiterExample | qiskit_alcom_provider/split_string.cpp:13-20 | on `"a\n\nb\nc"` the loop gives `["a", "\nb"]` |
| SplitString.TrailingDelimiterExample | qiskit_alcom_provider/split_string.cpp:13-17 | a string ending in a detected delimiter drives the iterator past `end`, while the corrected splitter gives `["a", ""]` for `"a\n"` |
| SplitString.StartBelow | qiskit_alcom_provider/split_string.cpp:12-17 | the corrected field start never passes the scan position, and it equals it exactly after a delimiter |
| SplitString.SplitLines | qiskit_alcom_provider/split_string.cpp:9-21 | the corrected loop returns every field, including the one after the last delimiter |
| SplitString.FieldsRoundTrip | qiskit_alcom_provider/split_string.cpp:9-21 | joining the corrected fields with the delimiter gives back the string |
| SplitString.FieldsClean | qiskit_alcom_provider/split_string.cpp:9-21 | no corrected field contains the delimiter |
| SplitString.AppendField | qiskit_alcom_provider/split_string.cpp:9-21 | appending a delimiter and a delimiter-free line adds exactly that field |
| SplitString.FieldsOfLines | qiskit_alcom_provider/split_string.cpp:9-21 | splitting lines joined by the delimiter gives the lines back, empty ones included |
| SplitString.SkippedDelimiterCorrected | qiskit_alcom_provider/split_string.cpp:9-21 | the corrected splitter gives the four fields of `"a\n\nb\nc"` |
| SplitString.MainExampleCorrected | qiskit_alcom_provider/split_string.cpp:26-28 | the corrected splitter gives all nine lines of the example program |

## Left out

- Floating point: floats are exact `real` literals. The model does no float arithmetic and no IEEE rounding; `time_taken` is `end - start` over reals.
- `complex(r, i)` and the `Statevector` object are not modelled. `get_statevector` returns the paired parts; whatever the `Statevector` constructor checks or raises is not part of this model.
- JSON serialization: `json.dumps` of the Bell result is a fixed string constant, not derived from the value. The encoder's `super().default` is modelled only as its `TypeError`.
- Dictionary iteration order for the generic `Iterate` of a dict (`KeysOf`) is not fixed. Where order matters (the registry and the filters), dictionaries are sequences of pairs in insertion order.
- Logging: `logger.warning` and `logger.error` are not printed. The semantic warnings are returned as circuit names; the error log lines before the `ALComError` are not modelled.
- Randomness, clock and date: `uuid.uuid4()`, `time.time()` and `datetime.now().isoformat()` are parameters.
- Qiskit library calls are parameters:
  - `validate_qobj_against_schema` becomes the `schemaValid` verdict;
  - `disassemble(qobj)` and `qc.qasm()` become `circuitQasm`;
  - the controller is a function from OpenQASM text to a pair.
- The canned `bdd_controller` returns a JSON string and takes three arguments, but `_run_job` calls it with one and subscripts its result. `RunJob` takes an abstract controller that returns a pair, so that mismatch (and the `TypeError` it would raise) is not modelled.
- `use_statevector` is assigned and never read, so it is not modelled.
- `ALComJob` and `submit()`: the asynchronous job object and its execution are not modelled. `Run` returns the job's arguments; `RunJob` is the body the job executes.
- `Run`: the model does not capture that the noise-model check happens before a job id is drawn, because the id is a parameter.
- `QasmBackendConfiguration.from_dict` and the `configuration()` object: the configuration is a record, and filters read a key/value view of it (`ConfigurationDict`).
- The gate descriptions and `qasm_def` texts are kept in `GateDoc`, outside the `Gate` record. The key/value view of the configuration that filters read (`ConfigurationDict`) puts them back into each entry of `gates`.
- `__version__` (`version.py`) is not part of this model; the version string is a parameter.
- `status`, `__repr__` and `__str__` produce display values only and are not modelled.
- Aliasing: `copy.copy` in `from_dict` and `dict.update` in `to_dict` make shallow copies. Values are immutable here, so sharing of nested dictionaries is not modelled.
- `available_backends`: filters are a sequence of key/value pairs. Passing a non-dict truthy value (which would fail on `.items()`) is not modelled.
- Python's `==` is modelled for the values here (`Values.PyEq`): floats are exact reals, so NaN and float rounding in int/float comparisons are not captured, and the configuration object's own attribute types are those of the key/value view.
- AlcomProvider.Select: its own contract states only the length bound. Membership is stated by `SelectExactly` and the loop's result by `AvailableBackends`.
- TrimmedResult.GetStatevector: it is modelled from the code, which subscripts the stored value. A missing statevector is a `TypeError` from subscripting `None`.
- SplitString.Split: it requires that the loop not match the final character (`StaysInBounds`). The source then moves the iterator past `end`, which is undefined behaviour and has no model. See Findings.
- The `split_string.cpp` `main` prints each line; the printing is not modelled, only the `split` call it makes.

## Findings

| source | as written | input that shows it | evidently intended | confidence | as-written member | corrected member |
|---|---|---|---|---|---|---|
| qiskit_alcom_provider/split_string.cpp:13-20 | the text after the last delimiter is never pushed, so the last line is lost | the program in `main`: the result has eight lines and lacks `measure q[2] -> c[2];` | every field, the last one included | not executed | SplitString.MainExample | SplitString.MainExampleCorrected |
| qiskit_alcom_provider/split_string.cpp:17 | `first = ++it` plus the loop's `++it` skip the character after each delimiter, so a second delimiter in a row is never read | `"a\n\nb\nc"` gives `["a", "\nb"]` | `["a", "", "b", "c"]` | not executed | SplitString.SkippedDelimiterExample | SplitString.SkippedDelimiterCorrected |
| qiskit_alcom_provider/bdd_backend.py:116 | the guard raises `NoiseModelNotSupportedError`, which the module neither defines nor imports (line 40 imports only `ALComError`) | `run(qobj, noise_model=m)` for any `m` other than `None` raises `NameError` | raise `NoiseModelNotSupportedError` | not executed | BddBackend.RunAsWritten | BddBackend.Run |
| qiskit_alcom_provider/split_string.cpp:13-17 | a delimiter as the final character makes `++it` step past `end` | `"a\n"` | `["a", ""]`, staying within the string | not executed | SplitString.TrailingDelimiterExample | SplitString.FieldsRoundTrip |
