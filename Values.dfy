/**
 * The Python data that the package passes around: JSON-like values, with
 * string-keyed dictionaries, and the exceptions the package raises.
 */
module Values {

  /** A Python value as found in result dictionaries and configurations.
      `Null` is Python's `None`. A float is kept as the exact decimal it is
      written as; nothing here does floating-point arithmetic. */
  datatype Value =
    | Null
    | Bool(b: bool)
    | Int(i: int)
    | Float(x: real)
    | Str(s: string)
    | List(items: seq<Value>)
    | Dict(entries: map<string, Value>)

  /** A value Python treats as a number: `bool` is a subclass of `int`. */
  predicate IsNumber(v: Value)
  {
    v.Bool? || v.Int? || v.Float?
  }

  /** The number a bool, int or float stands for: `True` is 1 and `False`
      is 0. */
  function NumberOf(v: Value): real
    requires IsNumber(v)
  {
    match v
    case Bool(b) => if b then 1.0 else 0.0
    case Int(i) => i as real
    case Float(x) => x
  }

  /** Python's `==` on these values: numbers compare by value whatever
      their type (`True == 1`, `30 == 30.0`), lists element by element,
      dicts by keys and then value by value; any other value equals only a
      value of the same kind with the same contents. */
  predicate PyEq(a: Value, b: Value)
    ensures PyEq(a, b) ==> (IsNumber(a) <==> IsNumber(b))
    ensures PyEq(a, b) && (a.Null? || a.Str?) ==> a == b
    ensures PyEq(a, b) && a.List? ==> b.List? && |a.items| == |b.items|
    decreases a
  {
    if IsNumber(a) || IsNumber(b) then
      IsNumber(a) && IsNumber(b) && NumberOf(a) == NumberOf(b)
    else
      match a
      case List(xs) =>
        b.List? && |xs| == |b.items| && forall k :: 0 <= k < |xs| ==> PyEq(xs[k], b.items[k])
      case Dict(m) =>
        b.Dict? && m.Keys == b.entries.Keys && forall k :: k in m ==> PyEq(m[k], b.entries[k])
      case _ => a == b
  }

  /** Every value equals itself, so `==` relates at least the values that
      are the same. */
  lemma {:induction false} PyEqReflexive(a: Value)
    ensures PyEq(a, a)
    decreases a
  {
    match a
    case List(xs) =>
      forall k | 0 <= k < |xs| ensures PyEq(xs[k], xs[k]) {
        PyEqReflexive(xs[k]);
      }
    case Dict(m) =>
      forall k | k in m ensures PyEq(m[k], m[k]) {
        PyEqReflexive(m[k]);
      }
    case _ =>
  }

  /** `==` does not depend on the order of its operands. */
  lemma {:induction false} PyEqSymmetric(a: Value, b: Value)
    requires PyEq(a, b)
    ensures PyEq(b, a)
    decreases a
  {
    if !IsNumber(a) && !IsNumber(b) {
      match a
      case List(xs) =>
        forall k | 0 <= k < |xs| ensures PyEq(b.items[k], xs[k]) {
          PyEqSymmetric(xs[k], b.items[k]);
        }
      case Dict(m) =>
        forall k | k in b.entries ensures PyEq(b.entries[k], m[k]) {
          PyEqSymmetric(m[k], b.entries[k]);
        }
      case _ =>
    }
  }

  /** `d.get(key)`: the value under key, or `None` when it is absent. */
  function Get(d: map<string, Value>, key: string): (v: Value)
    ensures key !in d ==> v == Null
    ensures key in d ==> v == d[key]
  {
    if key in d then d[key] else Null
  }

  /** The exceptions raised along the paths modelled here. */
  datatype Error =
    | NoiseModelNotSupported             // `run` with a noise model
    | NameError(name: string)            // a name neither defined nor imported
    | SchemaInvalid                      // `validate_qobj_against_schema` raised
    | OneExperimentOnly                  // the assertion in `_get_qasm_str_from_qobj`
    | SimulationFailed                   // `ALComError` from `_validate_controller_output`
    | KeyError(key: string)
    | IndexError
    | TypeError(message: string)
}
