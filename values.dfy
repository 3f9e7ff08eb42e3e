/**
 * The Python values a DRF response payload is made of, as the renderer
 * inspects them: non-iterable scalars, strings, mappings and lists.
 */
module Values {
  import opened Options
  import opened Dicts

  /** A value that is not `Iterable`: `None`, a bool, an int, or any other object (a date, a Decimal, ...). */
  datatype Atom = Null | Bool(b: bool) | Int(i: int) | Other(id: nat)

  /** `dict` versus DRF's `ReturnDict` (a `dict` subclass): `render` treats them differently. */
  datatype MapKind = PlainDict | ReturnDict

  datatype Value =
    | Scalar(atom: Atom)
    | Str(s: string)
    | Map(kind: MapKind, entries: seq<(string, Value)>)
    | List(items: seq<Value>)

  const NoneValue: Value := Scalar(Null)
  const EmptyDict: Value := Map(PlainDict, [])

  /** Python truthiness (`bool(v)`): `None`, `False`, `0` and empty containers are false. */
  predicate Truthy(v: Value)
  {
    match v
    case Scalar(a) =>
      (match a
       case Null => false
       case Bool(b) => b
       case Int(i) => i != 0
       case Other(_) => true)
    case Str(s) => s != ""
    case Map(_, es) => es != []
    case List(xs) => xs != []
  }

  /** `isinstance(v, collections.abc.Iterable)`. */
  predicate IsIterable(v: Value)
  {
    !v.Scalar?
  }

  /** A value that can stand in a spreadsheet cell as it is. */
  predicate IsCell(v: Value)
  {
    v.Scalar? || v.Str?
  }

  /** `key in m` for a mapping. */
  predicate HasKey(m: Value, key: string)
    requires m.Map?
  {
    key in Keys(m.entries)
  }

  /** `m.get(key, default)`; `m[key]` when the key is present. */
  function Get(m: Value, key: string, default: Value): (r: Value)
    requires m.Map?
    ensures HasKey(m, key) ==> exists i :: 0 <= i < |m.entries| && m.entries[i] == (key, r)
    ensures !HasKey(m, key) ==> r == default
    ensures HasKey(m, key) ==> LastValue(m.entries, key) == Some(r)
    ensures HasKey(m, key) && DistinctKeys(m.entries) ==> forall i :: 0 <= i < |m.entries| && m.entries[i].0 == key ==> m.entries[i].1 == r
  {
    LastValueDistinct(m.entries, key);
    match LastValue(m.entries, key)
    case Some(v) => LastValueIsAnEntry(m.entries, key); v
    case None => default
  }

  lemma {:induction false} LastValueIsAnEntry<V>(d: seq<(string, V)>, k: string)
    requires LastValue(d, k).Some?
    ensures exists i :: 0 <= i < |d| && d[i] == (k, LastValue(d, k).value)
  {
    if d[|d| - 1].0 != k {
      LastValueIsAnEntry(d[..|d| - 1], k);
      var i :| 0 <= i < |d| - 1 && d[..|d| - 1][i] == (k, LastValue(d, k).value);
      assert d[i] == (k, LastValue(d, k).value);
    }
  }

  /** `len(v)` of a mapping or a list. */
  function Len(v: Value): nat
    requires v.Map? || v.List?
  {
    if v.Map? then |v.entries| else |v.items|
  }

  /**
   * The library functions the renderer calls on arbitrary objects and that this
   * model leaves uninterpreted: `str(v)`, `json.dumps(v, cls=DjangoJSONEncoder)`
   * and plain `json.dumps(v)`.
   */
  datatype Encoders = Encoders(str: Value -> string, djangoJson: Value -> string, json: Value -> string)

  /** `sep.join(parts)`. */
  function Join(parts: seq<string>, sep: string): string
  {
    if |parts| == 0 then ""
    else if |parts| == 1 then parts[0]
    else parts[0] + sep + Join(parts[1..], sep)
  }
}
