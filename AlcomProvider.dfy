/**
 * The provider: a registry of backends by name, lookup by name, and the
 * conjunctive key/value filter over backend configurations.
 */
module AlcomProvider {
  import opened Wrappers
  import opened Values
  import QasmSimulator

  /** A backend instance, reduced to its name and the key/value view of its
      configuration. */
  datatype Backend = Backend(name: string, configuration: map<string, Value>)

  /** The `qasm_simulator` backend, built from the default configuration. */
  function QasmSimulatorInstance(version: string): Backend
  {
    Backend("qasm_simulator",
            QasmSimulator.ConfigurationDict(QasmSimulator.DefaultConfiguration(version)))
  }

  /** Filters as `(key, value)` pairs in the order the dictionary yields them. */
  type Filters = seq<(string, Value)>

  /** `instance.configuration().get(key) == value` holds for every filter,
      with Python's `==`. */
  predicate Matches(b: Backend, filters: Filters)
  {
    forall j :: 0 <= j < |filters| ==> PyEq(Get(b.configuration, filters[j].0), filters[j].1)
  }

  /** The entries, in order, whose backend passes every filter. */
  function Select(entries: seq<(string, Backend)>, filters: Filters): (s: seq<(string, Backend)>)
    ensures |s| <= |entries|
  {
    if entries == [] then []
    else
      var rest := Select(entries[1..], filters);
      if Matches(entries[0].1, filters) then [entries[0]] + rest else rest
  }

  /** One filter step: `{name: instance for name, instance in
      backends.items() if instance.configuration().get(key) == value}`. */
  function Keep(entries: seq<(string, Backend)>, key: string, value: Value): (kept: seq<(string, Backend)>)
    ensures forall e :: e in kept <==> e in entries && PyEq(Get(e.1.configuration, key), value)
  {
    if entries == [] then []
    else
      var rest := Keep(entries[1..], key, value);
      if PyEq(Get(entries[0].1.configuration, key), value) then [entries[0]] + rest else rest
  }

  /** The backends of the entries, in order (`dict.values()`). */
  function BackendsOf(entries: seq<(string, Backend)>): (bs: seq<Backend>)
    ensures |bs| == |entries|
    ensures forall i :: 0 <= i < |entries| ==> bs[i] == entries[i].1
  {
    if entries == [] then [] else [entries[0].1] + BackendsOf(entries[1..])
  }

  /** Applying one more filter to the selection is selecting with one more
      filter. */
  lemma {:induction false} KeepSelect(entries: seq<(string, Backend)>, filters: Filters, key: string, value: Value)
    ensures Keep(Select(entries, filters), key, value) == Select(entries, filters + [(key, value)])
    decreases |entries|
  {
    if entries != [] {
      var fs := filters + [(key, value)];
      var b := entries[0].1;
      KeepSelect(entries[1..], filters, key, value);
      assert Matches(b, fs) <==> Matches(b, filters) && PyEq(Get(b.configuration, key), value) by {
        if Matches(b, filters) && PyEq(Get(b.configuration, key), value) {
          forall j | 0 <= j < |fs|
            ensures PyEq(Get(b.configuration, fs[j].0), fs[j].1)
          {
            if j < |filters| {
              assert fs[j] == filters[j];
            }
          }
        }
        if Matches(b, fs) {
          forall j | 0 <= j < |filters|
            ensures PyEq(Get(b.configuration, filters[j].0), filters[j].1)
          {
            assert fs[j] == filters[j];
          }
          assert fs[|filters|] == (key, value);
        }
      }
    }
  }

  /** With no filters, every entry is selected. */
  lemma {:induction false} SelectNoFilters(entries: seq<(string, Backend)>)
    ensures Select(entries, []) == entries
    decreases |entries|
  {
    if entries != [] {
      SelectNoFilters(entries[1..]);
    }
  }

  /** The selection holds exactly the registered entries that pass every
      filter. */
  lemma {:induction false} SelectExactly(entries: seq<(string, Backend)>, filters: Filters)
    ensures forall e :: e in Select(entries, filters) <==> e in entries && Matches(e.1, filters)
    decreases |entries|
  {
    if entries != [] {
      SelectExactly(entries[1..], filters);
      assert entries == [entries[0]] + entries[1..];
    }
  }

  /** The selection depends only on which filters there are, not on the
      order they are applied in. */
  lemma {:induction false} SelectOrderFree(entries: seq<(string, Backend)>, f1: Filters, f2: Filters)
    requires forall p :: p in f1 <==> p in f2
    ensures Select(entries, f1) == Select(entries, f2)
    decreases |entries|
  {
    if entries != [] {
      SelectOrderFree(entries[1..], f1, f2);
      var b := entries[0].1;
      assert Matches(b, f1) <==> Matches(b, f2) by {
        MatchesBySet(b, f1, f2);
        MatchesBySet(b, f2, f1);
      }
    }
  }

  lemma MatchesBySet(b: Backend, f1: Filters, f2: Filters)
    requires forall p :: p in f1 ==> p in f2
    ensures Matches(b, f2) ==> Matches(b, f1)
  {
    if Matches(b, f2) {
      forall j | 0 <= j < |f1|
        ensures PyEq(Get(b.configuration, f1[j].0), f1[j].1)
      {
        assert f1[j] in f2;
        var i :| 0 <= i < |f2| && f2[i] == f1[j];
      }
    }
  }

  /** The registry `__init__` builds. */
  function DefaultRegistry(version: string): seq<(string, Backend)>
  {
    [("qasm_simulator", QasmSimulatorInstance(version))]
  }

  /** On the default registry: asking for a local simulator finds the
      `qasm_simulator`, asking for more qubits than it advertises finds
      nothing, and filtering on a key its configuration lacks matches only
      the value `None`. */
  lemma DefaultRegistryFilters(version: string)
    ensures Select(DefaultRegistry(version), [("local", Bool(true)), ("simulator", Bool(true))]) == DefaultRegistry(version)
    ensures Select(DefaultRegistry(version), [("n_qubits", Int(QasmSimulator.MaxQubitMemory + 1))]) == []
    ensures Select(DefaultRegistry(version), [("noise_model", Null)]) == DefaultRegistry(version)
  {
    var b := QasmSimulatorInstance(version);
    assert Get(b.configuration, "n_qubits") == Int(QasmSimulator.MaxQubitMemory);
    var tooMany := [("n_qubits", Int(QasmSimulator.MaxQubitMemory + 1))];
    assert !PyEq(Get(b.configuration, tooMany[0].0), tooMany[0].1);
  }

  /** Filter values are compared as Python compares them: the float 30.0
      finds the 30-qubit simulator and the int 1 matches `local: True`. */
  lemma NumericFilters(version: string)
    ensures Select(DefaultRegistry(version), [("n_qubits", Float(30.0))]) == DefaultRegistry(version)
    ensures Select(DefaultRegistry(version), [("local", Int(1))]) == DefaultRegistry(version)
  {
    var b := QasmSimulatorInstance(version);
    assert Get(b.configuration, "n_qubits") == Int(QasmSimulator.MaxQubitMemory);
    assert Get(b.configuration, "local") == Bool(true);
  }

  /** `ALComProvider`: the registry `backends_list`, a dictionary from
      backend name to backend, as its entries in insertion order. */
  class Provider {
    var backendsList: seq<(string, Backend)>

    /** `__init__`: the registry holds the one `qasm_simulator` backend. */
    constructor (version: string)
      ensures backendsList == DefaultRegistry(version)
    {
      backendsList := [("qasm_simulator", QasmSimulatorInstance(version))];
    }

    /** `get_backend`: the backend registered under `name`; an unknown name
        is a `KeyError`. */
    function GetBackend(name: string): (r: Result<Backend, Error>)
      reads this
      ensures r.Success? <==> exists i :: 0 <= i < |backendsList| && backendsList[i].0 == name
      ensures r.Success? ==> (name, r.value) in backendsList
      ensures r.Failure? ==> r.error == KeyError(name)
    {
      Lookup(backendsList, name)
    }

    /** `backends`: every registered backend, whatever `name` and the
        keyword arguments say. */
    function Backends(name: Option<string> := None, kwargs: map<string, Value> := map[]): (bs: seq<Backend>)
      reads this
      ensures |bs| == |backendsList|
      ensures forall i :: 0 <= i < |bs| ==> bs[i] == backendsList[i].1
    {
      BackendsOf(backendsList)
    }

    /** `available_backends`: narrows the registry once per filter, keeping
        the backends whose configuration has the filter's value under the
        filter's key. No filters (`None` or `{}`) keeps them all. */
    method AvailableBackends(filters: Filters := []) returns (bs: seq<Backend>)
      ensures bs == BackendsOf(Select(backendsList, filters))
    {
      var backends := backendsList;
      SelectNoFilters(backendsList);
      var i := 0;
      while i < |filters|
        invariant 0 <= i <= |filters|
        invariant backends == Select(backendsList, filters[..i])
      {
        var (key, value) := filters[i];
        KeepSelect(backendsList, filters[..i], key, value);
        assert filters[..i + 1] == filters[..i] + [(key, value)];
        backends := Keep(backends, key, value);
        i := i + 1;
      }
      assert filters[..i] == filters;
      bs := BackendsOf(backends);
    }
  }

  /** The first entry named `name`. */
  function Lookup(entries: seq<(string, Backend)>, name: string): (r: Result<Backend, Error>)
    ensures r.Success? <==> exists i :: 0 <= i < |entries| && entries[i].0 == name
    ensures r.Success? ==> (name, r.value) in entries
    ensures r.Failure? ==> r.error == KeyError(name)
  {
    if entries == [] then Failure(KeyError(name))
    else if entries[0].0 == name then Success(entries[0].1)
    else
      var r := Lookup(entries[1..], name);
      assert r.Success? ==> (name, r.value) in entries by {
        if r.Success? {
          assert (name, r.value) in entries[1..];
        }
      }
      r
  }
}
