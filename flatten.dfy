/**
 * `XLSXRenderer._flatten`: a nested record becomes an ordered dict from
 * dotted-path keys to cell values.
 */
module Flattening {
  import opened Dicts
  import opened Values

  const KeySep: string := "."
  const ListSep: string := ", "

  /** The key of field `k` under `parent`: a top-level key (empty parent) stays as it is. */
  function ChildKey(parent: string, k: string): string
  {
    if parent != "" then parent + KeySep + k else k
  }

  /** `map(str, xs)`. */
  function StrEach(xs: seq<Value>, enc: Encoders): seq<string>
  {
    seq(|xs|, i requires 0 <= i < |xs| => enc.str(xs[i]))
  }

  /**
   * The cell a non-mapping field value becomes. A list whose first element is
   * itself iterable (a list, a string or a mapping) is written as JSON text;
   * any other list, the empty one included, as the ", "-join of `str` of its
   * elements; anything else is kept as it is.
   */
  function LeafCell(v: Value, enc: Encoders): Value
    requires !v.Map?
  {
    match v
    case List(xs) =>
      if |xs| > 0 && IsIterable(xs[0]) then Str(enc.djangoJson(v))
      else Str(Join(StrEach(xs, enc), ListSep))
    case _ => v
  }

  /** The list `items` that `_flatten` has built after the first `n` fields of `m`. */
  function FlatItems(m: Value, n: nat, parent: string, enc: Encoders): seq<(string, Value)>
    requires m.Map? && n <= |m.entries|
    decreases m, 0, n
  {
    if n == 0 then []
    else
      var (k, v) := m.entries[n - 1];
      FlatItems(m, n - 1, parent, enc) + FieldItems(k, v, parent, enc)
  }

  /** What one field `k: v` under `parent` adds to `items`. */
  function FieldItems(k: string, v: Value, parent: string, enc: Encoders): seq<(string, Value)>
    decreases v, 2
  {
    if v.Map? then Flatten(v, ChildKey(parent, k), enc) else [(ChildKey(parent, k), LeafCell(v, enc))]
  }

  /** `_flatten(m, parent)`: `dict(items)` over all the fields of `m`. */
  function Flatten(m: Value, parent: string, enc: Encoders): seq<(string, Value)>
    requires m.Map?
    decreases m, 1
  {
    DictOf(FlatItems(m, |m.entries|, parent, enc))
  }

  /** `_flatten`, step by step as the source runs it. */
  method FlattenRecord(data: Value, parentKey: string, enc: Encoders) returns (flat: seq<(string, Value)>)
    requires data.Map?
    ensures flat == Flatten(data, parentKey, enc)
    decreases data
  {
    var items: seq<(string, Value)> := [];
    var i := 0;
    while i < |data.entries|
      invariant i <= |data.entries|
      invariant items == FlatItems(data, i, parentKey, enc)
    {
      var (k, v) := data.entries[i];
      var newKey := if parentKey != "" then parentKey + KeySep + k else k;
      if v.Map? {
        var sub := FlattenRecord(v, newKey, enc);
        items := items + sub;
      } else if v.List? {
        if |v.items| > 0 && IsIterable(v.items[0]) {
          items := items + [(newKey, Str(enc.djangoJson(v)))];
        } else {
          items := items + [(newKey, Str(Join(StrEach(v.items, enc), ListSep)))];
        }
      } else {
        items := items + [(newKey, v)];
      }
      i := i + 1;
    }
    flat := DictOf(items);
  }

  // ---------------------------------------------------------------------------
  // A reference definition: the leaves of a record, by path.

  /** Prefix every path in `ps` with `k`. */
  function Under(k: string, ps: seq<(seq<string>, Value)>): seq<(seq<string>, Value)>
  {
    seq(|ps|, i requires 0 <= i < |ps| => ([k] + ps[i].0, ps[i].1))
  }

  /**
   * The non-mapping values of the first `n` fields of `m` and, recursively, of its
   * nested mappings, each with the sequence of keys that leads to it, in
   * depth-first order.
   */
  function PathsUpTo(m: Value, n: nat): (ps: seq<(seq<string>, Value)>)
    requires m.Map? && n <= |m.entries|
    ensures forall i :: 0 <= i < |ps| ==> !ps[i].1.Map? && ps[i].0 != []
    decreases m, 0, n
  {
    if n == 0 then []
    else
      var (k, v) := m.entries[n - 1];
      PathsUpTo(m, n - 1) + FieldPaths(k, v)
  }

  /** The leaves below one field `k: v`. */
  function FieldPaths(k: string, v: Value): (ps: seq<(seq<string>, Value)>)
    ensures forall i :: 0 <= i < |ps| ==> !ps[i].1.Map? && ps[i].0 != []
    decreases v, 2
  {
    if v.Map? then Under(k, Paths(v)) else [([k], v)]
  }

  function Paths(m: Value): (ps: seq<(seq<string>, Value)>)
    requires m.Map?
    ensures forall i :: 0 <= i < |ps| ==> !ps[i].1.Map? && ps[i].0 != []
    decreases m, 1
  {
    PathsUpTo(m, |m.entries|)
  }

  /** The keys of a path joined with "." below `parent`. */
  function DottedKey(parent: string, path: seq<string>): string
    decreases |path|
  {
    if path == [] then parent else DottedKey(ChildKey(parent, path[0]), path[1..])
  }

  /** Every path as a dotted key, with its value as a cell. */
  function Label(ps: seq<(seq<string>, Value)>, parent: string, enc: Encoders): seq<(string, Value)>
    requires forall i :: 0 <= i < |ps| ==> !ps[i].1.Map?
  {
    seq(|ps|, i requires 0 <= i < |ps| => (DottedKey(parent, ps[i].0), LeafCell(ps[i].1, enc)))
  }

  /** The (dotted key, cell) pairs of every leaf of `m`, before any deduplication. */
  function Leaves(m: Value, parent: string, enc: Encoders): seq<(string, Value)>
    requires m.Map?
  {
    Label(Paths(m), parent, enc)
  }

  lemma LabelAppend(a: seq<(seq<string>, Value)>, b: seq<(seq<string>, Value)>, parent: string, enc: Encoders)
    requires forall i :: 0 <= i < |a| ==> !a[i].1.Map?
    requires forall i :: 0 <= i < |b| ==> !b[i].1.Map?
    ensures Label(a + b, parent, enc) == Label(a, parent, enc) + Label(b, parent, enc)
  {
  }

  lemma LabelUnder(k: string, ps: seq<(seq<string>, Value)>, parent: string, enc: Encoders)
    requires forall i :: 0 <= i < |ps| ==> !ps[i].1.Map?
    ensures Label(Under(k, ps), parent, enc) == Label(ps, ChildKey(parent, k), enc)
  {
    forall i | 0 <= i < |ps|
      ensures DottedKey(parent, [k] + ps[i].0) == DottedKey(ChildKey(parent, k), ps[i].0)
    {
      assert ([k] + ps[i].0)[1..] == ps[i].0;
    }
  }

  /** One field, flattened, is dict-equivalent to the labelled leaves below it. */
  lemma {:induction false} FieldItemsAreLeaves(k: string, v: Value, parent: string, enc: Encoders)
    ensures DictOf(FieldItems(k, v, parent, enc)) == DictOf(Label(FieldPaths(k, v), parent, enc))
    decreases v, 2
  {
    var key := ChildKey(parent, k);
    if v.Map? {
      FlattenIsDictOfLeaves(v, key, enc);
      LabelUnder(k, Paths(v), parent, enc);
      DictOfSpec(FlatItems(v, |v.entries|, key, enc));
      DictOfDistinct(Flatten(v, key, enc));
    } else {
      assert DottedKey(parent, [k]) == key by {
        assert [k][1..] == [];
      }
    }
  }

  /** Flattening the first `n` fields is dict-equivalent to labelling their leaves. */
  lemma {:induction false} FlatItemsAreLeaves(m: Value, n: nat, parent: string, enc: Encoders)
    requires m.Map? && n <= |m.entries|
    ensures DictOf(FlatItems(m, n, parent, enc)) == DictOf(Label(PathsUpTo(m, n), parent, enc))
    decreases m, 0, n
  {
    if n > 0 {
      var (k, v) := m.entries[n - 1];
      FlatItemsAreLeaves(m, n - 1, parent, enc);
      FieldItemsAreLeaves(k, v, parent, enc);
      LabelAppend(PathsUpTo(m, n - 1), FieldPaths(k, v), parent, enc);
      DictOfConcat(FlatItems(m, n - 1, parent, enc), Label(PathsUpTo(m, n - 1), parent, enc),
                   FieldItems(k, v, parent, enc), Label(FieldPaths(k, v), parent, enc));
    }
  }

  /**
   * `_flatten` equals `dict` over the labelled leaves: the nested dicts that the
   * recursion builds change nothing but what a single `dict(...)` over every
   * leaf would do.
   */
  lemma {:induction false} FlattenIsDictOfLeaves(m: Value, parent: string, enc: Encoders)
    requires m.Map?
    ensures Flatten(m, parent, enc) == DictOf(Leaves(m, parent, enc))
    decreases m, 1
  {
    FlatItemsAreLeaves(m, |m.entries|, parent, enc);
  }

  lemma LeavesAreCells(m: Value, parent: string, enc: Encoders)
    requires m.Map?
    ensures forall i :: 0 <= i < |Leaves(m, parent, enc)| ==> IsCell(Leaves(m, parent, enc)[i].1)
  {
  }

  /**
   * What `_flatten` returns: an ordered dict (distinct keys) whose keys are the
   * dotted leaf keys in depth-first first-seen order, where a repeated key takes
   * the last value given to it, and whose every value is a cell (a scalar or a
   * string, never a mapping or a list).
   */
  lemma FlattenSpec(m: Value, parent: string, enc: Encoders)
    requires m.Map?
    ensures DistinctKeys(Flatten(m, parent, enc))
    ensures Keys(Flatten(m, parent, enc)) == FirstSeen(Keys(Leaves(m, parent, enc)))
    ensures forall k :: LastValue(Flatten(m, parent, enc), k) == LastValue(Leaves(m, parent, enc), k)
    ensures forall i :: 0 <= i < |Flatten(m, parent, enc)| ==> IsCell(Flatten(m, parent, enc)[i].1)
  {
    var flat := Flatten(m, parent, enc);
    var leaves := Leaves(m, parent, enc);
    FlattenIsDictOfLeaves(m, parent, enc);
    DictOfSpec(leaves);
    LeavesAreCells(m, parent, enc);
    forall i | 0 <= i < |flat| ensures IsCell(flat[i].1) {
      var k := flat[i].0;
      LastValueDistinct(flat, k);
      LastValueIsAnEntry(leaves, k);
    }
  }

  /** A record with one non-mapping field flattens to that one field's cell. */
  lemma OneField(kind: MapKind, k: string, v: Value, parent: string, enc: Encoders)
    requires !v.Map?
    ensures Flatten(Map(kind, [(k, v)]), parent, enc) == [(ChildKey(parent, k), LeafCell(v, enc))]
  {
    var m := Map(kind, [(k, v)]);
    var item := (ChildKey(parent, k), LeafCell(v, enc));
    assert FieldItems(k, v, parent, enc) == [item];
    assert FlatItems(m, 1, parent, enc) == [item] by {
      assert FlatItems(m, 0, parent, enc) == [];
    }
    DictOfSingleton(item);
  }

  /** Scalars and strings are stored as they are. */
  lemma ScalarFieldVerbatim(kind: MapKind, k: string, v: Value, parent: string, enc: Encoders)
    requires v.Scalar? || v.Str?
    ensures Flatten(Map(kind, [(k, v)]), parent, enc) == [(ChildKey(parent, k), v)]
  {
    OneField(kind, k, v, parent, enc);
  }

  /**
   * A list that is empty or whose first element is not iterable becomes the
   * ", "-join of `str` of its elements; the empty list becomes "".
   */
  lemma ListFieldJoined(kind: MapKind, k: string, xs: seq<Value>, parent: string, enc: Encoders)
    requires xs == [] || !IsIterable(xs[0])
    ensures Flatten(Map(kind, [(k, List(xs))]), parent, enc) == [(ChildKey(parent, k), Str(Join(StrEach(xs, enc), ", ")))]
    ensures xs == [] ==> Flatten(Map(kind, [(k, List(xs))]), parent, enc) == [(ChildKey(parent, k), Str(""))]
  {
    OneField(kind, k, List(xs), parent, enc);
  }

  /**
   * A non-empty list whose first element is iterable (a list, a string or a
   * mapping) becomes one JSON text entry.
   */
  lemma ListFieldAsJson(kind: MapKind, k: string, xs: seq<Value>, parent: string, enc: Encoders)
    requires xs != [] && IsIterable(xs[0])
    ensures Flatten(Map(kind, [(k, List(xs))]), parent, enc) == [(ChildKey(parent, k), Str(enc.djangoJson(List(xs))))]
  {
    OneField(kind, k, List(xs), parent, enc);
  }

  /** A record whose one field is a mapping flattens to that mapping flattened under the field's key. */
  lemma OneMapField(kind: MapKind, k: string, v: Value, parent: string, enc: Encoders)
    requires v.Map?
    ensures Flatten(Map(kind, [(k, v)]), parent, enc) == Flatten(v, ChildKey(parent, k), enc)
  {
    var m := Map(kind, [(k, v)]);
    var sub := Flatten(v, ChildKey(parent, k), enc);
    assert FlatItems(m, 1, parent, enc) == sub by {
      assert FlatItems(m, 0, parent, enc) == [];
    }
    DictOfSpec(FlatItems(v, |v.entries|, ChildKey(parent, k), enc));
    DictOfDistinct(sub);
  }

  /** `{"a": {"b": {"c": 1}}}` flattens to `{"a.b.c": 1}`. */
  lemma NestedPathExample(enc: Encoders)
    ensures Flatten(Map(PlainDict, [("a", Map(PlainDict, [("b", Map(PlainDict, [("c", Scalar(Int(1)))]))]))]), "", enc)
         == [("a.b.c", Scalar(Int(1)))]
  {
    var c := Map(PlainDict, [("c", Scalar(Int(1)))]);
    var b := Map(PlainDict, [("b", c)]);
    OneMapField(PlainDict, "a", b, "", enc);
    OneMapField(PlainDict, "b", c, "a", enc);
    assert ChildKey("a", "b") == "a.b";
    OneField(PlainDict, "c", Scalar(Int(1)), "a.b", enc);
    assert ChildKey("a.b", "c") == "a.b.c";
  }

  /** `{"tags": [1, 2, 3]}` flattens to `{"tags": "1, 2, 3"}` (with `str` of each number). */
  lemma NumberListExample(enc: Encoders)
    ensures Flatten(Map(PlainDict, [("tags", List([Scalar(Int(1)), Scalar(Int(2)), Scalar(Int(3))]))]), "", enc)
         == [("tags", Str(enc.str(Scalar(Int(1))) + ", " + enc.str(Scalar(Int(2))) + ", " + enc.str(Scalar(Int(3)))))]
  {
    var xs := [Scalar(Int(1)), Scalar(Int(2)), Scalar(Int(3))];
    ListFieldJoined(PlainDict, "tags", xs, "", enc);
    var parts := StrEach(xs, enc);
    assert parts == [enc.str(xs[0]), enc.str(xs[1]), enc.str(xs[2])];
    assert parts[1..][1..] == [enc.str(xs[2])];
    assert Join(parts[1..], ", ") == enc.str(xs[1]) + ", " + enc.str(xs[2]);
    assert Join(parts, ", ") == enc.str(xs[0]) + ", " + (enc.str(xs[1]) + ", " + enc.str(xs[2]));
    assert ChildKey("", "tags") == "tags";
    assert Join(parts, ", ") == enc.str(xs[0]) + ", " + enc.str(xs[1]) + ", " + enc.str(xs[2]);
  }

  /** A list of strings is not comma-joined: a string is iterable, so the list is written as JSON. */
  lemma StringListExample(enc: Encoders)
    ensures Flatten(Map(PlainDict, [("tags", List([Str("x"), Str("y")]))]), "", enc)
         == [("tags", Str(enc.djangoJson(List([Str("x"), Str("y")]))))]
  {
    ListFieldAsJson(PlainDict, "tags", [Str("x"), Str("y")], "", enc);
  }

  /**
   * `{"a.b": 1, "a": {"b": 2}}` flattens to `{"a.b": 2}`: the repeated key keeps
   * its first position and takes its last value.
   */
  lemma CollisionExample(enc: Encoders)
    ensures Flatten(Map(PlainDict, [("a.b", Scalar(Int(1))), ("a", Map(PlainDict, [("b", Scalar(Int(2)))]))]), "", enc)
         == [("a.b", Scalar(Int(2)))]
  {
    var items := [("a.b", Scalar(Int(1))), ("a.b", Scalar(Int(2)))];
    CollisionItems(enc);
    assert items[..1] == [("a.b", Scalar(Int(1)))];
    DictOfSingleton(items[0]);
    assert Keys(DictOf(items[..1])) == ["a.b"];
    assert IndexOf(["a.b"], "a.b") == 0;
    assert DictOf(items) == Put([("a.b", Scalar(Int(1)))], "a.b", Scalar(Int(2)));
  }

  /** The items `_flatten` gathers from `{"a.b": 1, "a": {"b": 2}}`, before `dict` merges them. */
  lemma CollisionItems(enc: Encoders)
    ensures var m := Map(PlainDict, [("a.b", Scalar(Int(1))), ("a", Map(PlainDict, [("b", Scalar(Int(2)))]))]);
            FlatItems(m, |m.entries|, "", enc) == [("a.b", Scalar(Int(1))), ("a.b", Scalar(Int(2)))]
  {
    var inner := Map(PlainDict, [("b", Scalar(Int(2)))]);
    var m := Map(PlainDict, [("a.b", Scalar(Int(1))), ("a", inner)]);
    assert FlatItems(m, 1, "", enc) == [("a.b", Scalar(Int(1)))] by {
      assert FlatItems(m, 0, "", enc) == [];
      assert ChildKey("", "a.b") == "a.b";
      assert FieldItems("a.b", Scalar(Int(1)), "", enc) == [("a.b", Scalar(Int(1)))];
    }
    assert FieldItems("a", inner, "", enc) == [("a.b", Scalar(Int(2)))] by {
      OneField(PlainDict, "b", Scalar(Int(2)), "a", enc);
      assert ChildKey("a", "b") == "a.b";
      assert ChildKey("", "a") == "a";
    }
    assert FlatItems(m, 2, "", enc) == FlatItems(m, 1, "", enc) + FieldItems("a", inner, "", enc);
  }
}
