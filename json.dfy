/** Decoded JSON values as the service handles them after `json.loads`,
    and the few pieces of Python's dynamic typing the service relies on:
    truthiness, `isinstance`, `dict.get` and the name of a value's type. */
module Json {
  import opened Wrappers
  import Strings

  /** A decoded JSON document. Python floats are not modelled. */
  datatype Value =
    | Null
    | Bool(b: bool)
    | Int(i: int)
    | Str(s: string)
    | List(items: seq<Value>)
    | Dict(fields: map<string, Value>)

  type Object = map<string, Value>

  /** Python's `bool(v)`. */
  predicate Truthy(v: Value) {
    match v
    case Null => false
    case Bool(b) => b
    case Int(i) => i != 0
    case Str(s) => s != ""
    case List(items) => items != []
    case Dict(fields) => fields != map[]
  }

  /** Python's `isinstance(v, int)`, which also holds of booleans. */
  predicate IsPyInt(v: Value) {
    v.Int? || v.Bool?
  }

  /** The integer a Python `int` (or `bool`) stands for. */
  function AsPyInt(v: Value): int
    requires IsPyInt(v)
  {
    if v.Int? then v.i else if v.b then 1 else 0
  }

  /** `type(v).__name__`. */
  function TypeName(v: Value): string {
    match v
    case Null => "NoneType"
    case Bool(_) => "bool"
    case Int(_) => "int"
    case Str(_) => "str"
    case List(_) => "list"
    case Dict(_) => "dict"
  }

  /** `str(v)` for the scalar values; containers are rendered only by
      their type, since their Python rendering depends on insertion order. */
  function PyStr(v: Value): (r: string)
    ensures v.Str? ==> r == v.s
  {
    match v
    case Null => "None"
    case Bool(b) => if b then "True" else "False"
    case Int(i) => Strings.IntToString(i)
    case Str(s) => s
    case List(_) => "<list>"
    case Dict(_) => "<dict>"
  }

  /** The text of the AttributeError raised by `v.get(...)` on a non-dict. */
  function NoGetText(v: Value): string {
    "'" + TypeName(v) + "' object has no attribute 'get'"
  }

  /** The text of the KeyError raised by `d[k]` for a missing key. */
  function KeyErrorText(k: string): string {
    "'" + k + "'"
  }

  /** The text of the TypeError raised by `v[k]` on a non-dict. */
  function NotSubscriptableText(v: Value): string {
    "'" + TypeName(v) + "' object is not subscriptable"
  }

  /** The TypeError text of `v['key']` on a value that is not a dict: a
      string or a list takes only integer indices, and any other value
      cannot be subscripted at all. */
  function SubscriptErrorText(v: Value): string {
    if v.Str? then "string indices must be integers, not 'str'"
    else if v.List? then "list indices must be integers or slices, not str"
    else NotSubscriptableText(v)
  }

  /** `d.get(k, default)`. */
  function Get(d: Object, k: string, default: Value): Value {
    if k in d then d[k] else default
  }

  /** `d.get(k)`: the value, or None when the key is absent. */
  function GetOpt(d: Object, k: string): Value {
    Get(d, k, Null)
  }

  /** The dictionaries among `vs`, in order: `[v for v in vs if isinstance(v, dict)]`. */
  function DictsOf(vs: seq<Value>): (r: seq<Value>)
    ensures |r| <= |vs|
    ensures forall k :: 0 <= k < |r| ==> r[k].Dict?
    ensures forall v :: v in r <==> v in vs && v.Dict?
    ensures (forall k :: 0 <= k < |vs| ==> vs[k].Dict?) ==> r == vs
    ensures vs != [] && vs[0].Dict? ==> r != [] && r[0] == vs[0]
  {
    if vs == [] then []
    else (if vs[0].Dict? then [vs[0]] else []) + DictsOf(vs[1..])
  }

  /** Filtering distributes over concatenation, so appending one value
      to the input appends it to the output exactly when it is a
      dictionary: the kept values stay in their input order. */
  lemma {:induction false} DictsOfAppend(a: seq<Value>, b: seq<Value>)
    ensures DictsOf(a + b) == DictsOf(a) + DictsOf(b)
  {
    if a == [] {
      assert a + b == b;
    } else {
      assert (a + b)[1..] == a[1..] + b;
      DictsOfAppend(a[1..], b);
    }
  }
}
