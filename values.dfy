/** Python values as they travel through the alerting service: decoded broker
    payloads, render contexts, rendered templates and provider payloads, with
    the exceptions Python code raises and the truthiness tests it applies. */
module Values {

  datatype Option<+T> = None | Some(value: T)

  /** A JSON-compatible Python value. Dicts are unordered here: code whose
      behaviour depends on a dict's iteration order takes that order as an
      explicit argument. */
  datatype Value =
    | VNone
    | VBool(b: bool)
    | VInt(i: int)
    | VStr(s: string)
    | VList(items: seq<Value>)
    | VDict(entries: map<string, Value>)

  /** The exceptions whose kind the modelled code distinguishes. */
  datatype Exc =
    | TemplateNotFound(name: string)
    | TemplateError(message: string)
    | ValueError(message: string)
    | TypeError(message: string)
    | KeyError(key: string)       // a string key: `str()` quotes it
    | KeyErrorOn(keyRepr: string) // any other key: `str()` is the key's repr, unquoted
    | AttributeError(message: string)
    | RuntimeError(message: string)
    | NoBrokersAvailable
    | External(message: string)   // raised inside a library or service outside the model

  /** A message handler, known by its qualified function name. */
  datatype Handler = Handler(name: string)

  /** What a foreign parser or evaluator reports: a result or an error text. */
  datatype Result<+T> = Ok(value: T) | Err(detail: string)

  /** What a Python call does: return a value or raise. */
  datatype Outcome<+T> = Done(value: T) | Raised(exc: Exc)
  {
    predicate IsFailure() { Raised? }

    function PropagateFailure<U>(): Outcome<U>
      requires Raised?
    {
      Raised(exc)
    }

    function Extract(): T
      requires Done?
    {
      value
    }
  }

  /** Python's truth test (`if x:`, `not x`, `x or y`). */
  predicate Truthy(v: Value)
  {
    match v
    case VNone => false
    case VBool(b) => b
    case VInt(i) => i != 0
    case VStr(s) => s != ""
    case VList(items) => items != []
    case VDict(entries) => entries != map[]
  }

  /** `x or y` */
  function Or(x: Value, y: Value): (r: Value)
    ensures Truthy(r) <==> Truthy(x) || Truthy(y)
    ensures Truthy(x) ==> r == x
  {
    if Truthy(x) then x else y
  }

  /** `d.get(k, default)` */
  function GetOr(d: map<string, Value>, k: string, default: Value): (r: Value)
    ensures k in d ==> r == d[k]
    ensures k !in d ==> r == default
  {
    if k in d then d[k] else default
  }

  /** `d.get(k)` */
  function Get(d: map<string, Value>, k: string): Value
  {
    GetOr(d, k, VNone)
  }

  predicate StartsWith(s: string, prefix: string)
  {
    |prefix| <= |s| && s[..|prefix|] == prefix
  }

  predicate EndsWith(s: string, suffix: string)
  {
    |suffix| <= |s| && s[|s| - |suffix|..] == suffix
  }

  /** `needle in haystack` for two strings. */
  predicate Contains(haystack: string, needle: string)
  {
    StartsWith(haystack, needle) || (haystack != [] && Contains(haystack[1..], needle))
  }

  /** Python's `str(v)`. A string is its own text; the text of any other value
      comes from `show`, which stands for Python's formatting of numbers,
      lists and dicts. */
  function Str(v: Value, show: Value -> string): (r: string)
    ensures v.VStr? ==> r == v.s
  {
    if v.VStr? then v.s else show(v)
  }

  /** `str(e)` for the modelled exceptions. */
  function ExcText(e: Exc): string
  {
    match e
    case TemplateNotFound(name) => name
    case TemplateError(m) => m
    case ValueError(m) => m
    case TypeError(m) => m
    case KeyError(k) => "'" + k + "'"
    case KeyErrorOn(r) => r
    case AttributeError(m) => m
    case RuntimeError(m) => m
    case NoBrokersAvailable => "NoBrokersAvailable"
    case External(m) => m
  }

  /** `v[key]` where `v` should be a dict. */
  function Index(v: Value, key: string): (r: Outcome<Value>)
    ensures r.Done? <==> v.VDict? && key in v.entries
    ensures r.Done? ==> r.value == v.entries[key]
  {
    if !v.VDict? then Raised(TypeError("object is not subscriptable by str"))
    else if key !in v.entries then Raised(KeyError(key))
    else Done(v.entries[key])
  }

  /** A mutable Python dict, for code that changes a caller's dict in place. */
  class PyDict {
    var entries: map<string, Value>

    constructor (m: map<string, Value>)
      ensures entries == m
    {
      entries := m;
    }

    /** `d.pop(key, default)` */
    method Pop(key: string, default: Value) returns (v: Value)
      modifies this
      ensures v == GetOr(old(entries), key, default)
      ensures entries == old(entries) - {key}
    {
      v := GetOr(entries, key, default);
      entries := entries - {key};
    }
  }

  /** `all(key in data for key in keys)` for a dict `data`. */
  predicate HasKeys(data: map<string, Value>, keys: seq<string>)
  {
    forall k :: k in keys ==> k in data
  }

  /** No element occurs twice. */
  predicate Distinct<T(==)>(s: seq<T>)
  {
    forall i, j :: 0 <= i < j < |s| ==> s[i] != s[j]
  }

  /** `s` is `t` with some elements left out and the rest kept in order
      (matched greedily, which finds a match whenever one exists). */
  predicate IsSubsequence<T(==)>(s: seq<T>, t: seq<T>)
    decreases |t|
  {
    s == [] || (t != [] && if s[0] == t[0] then IsSubsequence(s[1..], t[1..]) else IsSubsequence(s, t[1..]))
  }

  /** `order` lists every key of `m` exactly once: the iteration order of a dict. */
  predicate IsEnumeration<V>(order: seq<string>, m: map<string, V>)
  {
    && Distinct(order)
    && (forall i :: 0 <= i < |order| ==> order[i] in m)
    && (forall k :: k in m ==> k in order)
  }

  lemma {:induction false} EnumerationSize<V>(order: seq<string>, m: map<string, V>)
    requires IsEnumeration(order, m)
    ensures |order| == |m|
  {
    if order == [] {
      assert m.Keys == {};
    } else {
      var k := order[0];
      var rest := order[1..];
      var m' := m - {k};
      forall i, j | 0 <= i < j < |rest| ensures rest[i] != rest[j] {
        assert rest[i] == order[i + 1] && rest[j] == order[j + 1];
      }
      forall x | x in m' ensures x in rest {
        assert x in order && x != order[0];
        var n :| 0 <= n < |order| && order[n] == x;
        assert rest[n - 1] == x;
      }
      forall i | 0 <= i < |rest| ensures rest[i] in m' {
        assert rest[i] == order[i + 1] && order[i + 1] != order[0];
      }
      EnumerationSize(rest, m');
      assert m'.Keys == m.Keys - {k};
    }
  }

  /** Python's `type(v).__name__`. */
  function TypeName(v: Value): string
  {
    match v
    case VNone => "NoneType"
    case VBool(_) => "bool"
    case VInt(_) => "int"
    case VStr(_) => "str"
    case VList(_) => "list"
    case VDict(_) => "dict"
  }

  /** `key in d` for a dict whose keys are strings: a list or dict key is
      unhashable and raises; any other non-string key is simply absent. */
  function In<V>(key: Value, d: map<string, V>): (r: Outcome<bool>)
    ensures r.Raised? <==> key.VList? || key.VDict?
    ensures r == Done(true) <==> key.VStr? && key.s in d
  {
    if key.VList? || key.VDict? then Raised(TypeError("unhashable type: '" + TypeName(key) + "'"))
    else Done(key.VStr? && key.s in d)
  }

  /** The request's `data` field as a Python object: a dict the caller shares,
      or any other value. */
  datatype Data = NoData | DictData(dict: PyDict) | OtherData(value: Value)

  /** The request as a value, with the current contents of its `data` dict. */
  function Snapshot(fields: map<string, Value>, data: Data): map<string, Value>
    reads if data.DictData? then {data.dict} else {}
  {
    match data
    case NoData => fields
    case DictData(d) => fields["data" := VDict(d.entries)]
    case OtherData(v) => fields["data" := v]
  }

}
