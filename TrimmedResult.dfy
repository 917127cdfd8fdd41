/**
 * `TrimResult`: the result record the backend returns. It keeps one
 * string-keyed metadata dictionary holding `counts`, `statevector` and
 * any other keyword given to the constructor.
 */
module TrimmedResult {
  import opened Wrappers
  import opened Values

  const CountsKey := "counts"
  const StatevectorKey := "statevector"

  /** The name of the constructor's instance parameter. */
  const SelfKey := "self"

  /** What Python raises when a keyword names a parameter that is already
      bound, here the instance itself. */
  const SelfClash := TypeError("__init__() got multiple values for argument 'self'")

  /** The record, reduced to its metadata dictionary `_meta_data`. */
  datatype TrimResult = TrimResult(meta: map<string, Value>)

  /** Keyword arguments that can arrive in `**kwargs`: Python binds `counts`
      and `statevector` to the named parameters, never to `kwargs`, and a
      keyword `self` is refused because the instance is already bound. */
  predicate ExtraKeywords(kwargs: map<string, Value>)
  {
    CountsKey !in kwargs && StatevectorKey !in kwargs && SelfKey !in kwargs
  }

  /** A record as every constructor call leaves it: both named keys present. */
  predicate Valid(r: TrimResult)
  {
    CountsKey in r.meta && StatevectorKey in r.meta
  }

  /** `TrimResult(counts, statevector, **kwargs)`: starts from an empty
      dictionary, stores the two named arguments, then `update`s with the
      keywords. */
  method New(counts: Value := Null, statevector: Value := Null, kwargs: map<string, Value> := map[])
    returns (r: TrimResult)
    requires ExtraKeywords(kwargs)
    ensures Valid(r)
    ensures r.meta.Keys == kwargs.Keys + {CountsKey, StatevectorKey}
    ensures r.meta[CountsKey] == counts && r.meta[StatevectorKey] == statevector
    ensures forall k :: k in kwargs ==> r.meta[k] == kwargs[k]
  {
    var metaData: map<string, Value> := map[];
    metaData := metaData[CountsKey := counts];
    metaData := metaData[StatevectorKey := statevector];
    metaData := metaData + kwargs;
    r := TrimResult(metaData);
  }

  /** The dictionary `d` completed with `None` under whichever of `counts`
      and `statevector` it lacks: what `from_dict(d)` stores. */
  function WithDefaults(data: map<string, Value>): (m: map<string, Value>)
    ensures m.Keys == data.Keys + {CountsKey, StatevectorKey}
    ensures forall k :: k in data ==> m[k] == data[k]
    ensures CountsKey !in data ==> m[CountsKey] == Null
    ensures StatevectorKey !in data ==> m[StatevectorKey] == Null
  {
    map k | k in data.Keys + {CountsKey, StatevectorKey} :: Get(data, k)
  }

  /** Completing with defaults changes nothing exactly when both keys are
      already there. */
  lemma WithDefaultsUnchanged(data: map<string, Value>)
    ensures WithDefaults(data) == data <==> (CountsKey in data && StatevectorKey in data)
  {
    if CountsKey in data && StatevectorKey in data {
      assert WithDefaults(data).Keys == data.Keys;
    }
  }

  /** `from_dict`: a shallow copy of `data` unpacked as keyword arguments.
      A `self` entry collides with the instance parameter and the call
      raises `TypeError`. */
  method FromDict(data: map<string, Value>) returns (r: Result<TrimResult, Error>)
    ensures r.Failure? <==> SelfKey in data
    ensures r.Failure? ==> r.error == SelfClash
    ensures r.Success? ==> Valid(r.value) && r.value.meta == WithDefaults(data)
  {
    var inData := data;
    if SelfKey in inData {
      return Failure(SelfClash);
    }
    var counts := Get(inData, CountsKey);
    var statevector := Get(inData, StatevectorKey);
    var kwargs := inData - {CountsKey, StatevectorKey};
    var record := New(counts, statevector, kwargs);
    r := Success(record);
  }

  /** `to_dict`: a new dictionary updated with the whole metadata. */
  method ToDict(r: TrimResult) returns (out: map<string, Value>)
    ensures out.Keys == r.meta.Keys
    ensures forall k :: k in out ==> out[k] == r.meta[k]
  {
    out := map[];
    out := out + r.meta;
  }

  /** `TrimResult.from_dict(d).to_dict()`: gives back `d`, completed with
      `None` for a missing `counts` or `statevector`. */
  method FromDictToDict(data: map<string, Value>) returns (out: Result<map<string, Value>, Error>)
    ensures out.Failure? <==> SelfKey in data
    ensures out.Success? ==> out.value == WithDefaults(data)
    ensures out.Success? ==> (out.value == data <==> (CountsKey in data && StatevectorKey in data))
  {
    var r := FromDict(data);
    if r.Failure? {
      return Failure(r.error);
    }
    var d := ToDict(r.value);
    out := Success(d);
    WithDefaultsUnchanged(data);
  }

  /** `get_counts`: the stored counts. On a record every constructor call
      leaves, this subscript cannot raise `KeyError`: it answers as
      `.get("counts")` would. */
  function GetCounts(r: TrimResult): (counts: Value)
    requires Valid(r)
    ensures counts == Get(r.meta, CountsKey)
  {
    r.meta[CountsKey]
  }

  /** The record built by `from_dict(d)` answers `get_counts` with `d`'s
      counts, or `None` when `d` has none. */
  lemma CountsAfterFromDict(data: map<string, Value>)
    ensures Valid(TrimResult(WithDefaults(data)))
    ensures GetCounts(TrimResult(WithDefaults(data))) == Get(data, CountsKey)
  {
  }

  function Min(a: int, b: int): int
  {
    if a <= b then a else b
  }

  /** Python's `zip` over two lists: pairs of equal positions, as many as
      the shorter list has. */
  function Zip<A, B>(xs: seq<A>, ys: seq<B>): (z: seq<(A, B)>)
    ensures |z| == Min(|xs|, |ys|)
    ensures forall k :: 0 <= k < |z| ==> z[k] == (xs[k], ys[k])
  {
    if xs == [] || ys == [] then []
    else [(xs[0], ys[0])] + Zip(xs[1..], ys[1..])
  }

  /** `v[i]` for a non-negative integer index. */
  function Subscript(v: Value, i: nat): (r: Result<Value, Error>)
    ensures v.List? && i < |v.items| ==> r == Success(v.items[i])
    ensures r.Success? ==> (v.List? || v.Str?)
  {
    match v
    case List(items) => if i < |items| then Success(items[i]) else Failure(IndexError)
    case Str(s) => if i < |s| then Success(Str([s[i]])) else Failure(IndexError)
    case Dict(_) => Failure(KeyError("0"))
    case Null => Failure(TypeError("'NoneType' object is not subscriptable"))
    case _ => Failure(TypeError("object is not subscriptable"))
  }

  /** The items `for x in v` visits: a list's elements, a string's
      characters, a dictionary's keys. */
  ghost function Iterate(v: Value): (r: Result<seq<Value>, Error>)
    ensures v.List? ==> r == Success(v.items)
    ensures r.Success? <==> (v.List? || v.Str? || v.Dict?)
  {
    match v
    case List(items) => Success(items)
    case Str(s) => Success(seq(|s|, k requires 0 <= k < |s| => Str([s[k]])))
    case Dict(entries) => Success(KeysOf(entries))
    case _ => Failure(TypeError("object is not iterable"))
  }

  /** A dictionary's keys as string values; the order (insertion order in
      Python) is not modelled. */
  ghost function KeysOf(m: map<string, Value>): (keys: seq<Value>)
    ensures |keys| == |m|
    decreases |m|
  {
    if m == map[] then []
    else
      var k :| k in m;
      [Str(k)] + KeysOf(m - {k})
  }

  /** `get_statevector`: pairs the k-th entry of `statevector[0]` (real
      parts) with the k-th entry of `statevector[1]` (imaginary parts). */
  ghost function GetStatevector(r: TrimResult): (sv: Result<seq<(Value, Value)>, Error>)
    requires Valid(r)
    ensures var v := r.meta[StatevectorKey];
      v.List? && |v.items| >= 2 && v.items[0].List? && v.items[1].List? ==>
        sv.Success? &&
        |sv.value| == Min(|v.items[0].items|, |v.items[1].items|) &&
        forall k :: 0 <= k < |sv.value| ==> sv.value[k] == (v.items[0].items[k], v.items[1].items[k])
    ensures r.meta[StatevectorKey] == Null ==> sv.Failure? && sv.error.TypeError?
    ensures var v := r.meta[StatevectorKey]; v.List? && |v.items| < 2 ==> sv == Failure(IndexError)
    ensures sv.Success? ==> r.meta[StatevectorKey].List? || r.meta[StatevectorKey].Str?
  {
    var v := r.meta[StatevectorKey];
    match Subscript(v, 0)
    case Failure(e) => Failure(e)
    case Success(realPart) =>
      match Subscript(v, 1)
      case Failure(e) => Failure(e)
      case Success(imagPart) =>
        match Iterate(realPart)
        case Failure(e) => Failure(e)
        case Success(re) =>
          match Iterate(imagPart)
          case Failure(e) => Failure(e)
          case Success(im) => Success(Zip(re, im))
  }

  /** The shape the backend produces: equal-length real and imaginary lists
      give one amplitude per entry. */
  lemma StatevectorEqualLengths(r: TrimResult, re: seq<Value>, im: seq<Value>)
    requires Valid(r) && r.meta[StatevectorKey] == List([List(re), List(im)])
    requires |re| == |im|
    ensures GetStatevector(r).Success?
    ensures |GetStatevector(r).value| == |re| == |im|
  {
  }

  /** A record made by `from_dict` from a dictionary without a statevector
      cannot answer `get_statevector`. */
  lemma NoStatevectorFails(data: map<string, Value>)
    requires StatevectorKey !in data || data[StatevectorKey] == Null
    ensures GetStatevector(TrimResult(WithDefaults(data))).Failure?
  {
  }
}
