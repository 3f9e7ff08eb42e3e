/**
 * Python's insertion-ordered `dict`, modelled as an association list: a
 * sequence of (key, value) pairs. `DictOf` is the constructor `dict(items)`:
 * a key seen again keeps its first position and takes its last value.
 */
module Dicts {
  import opened Options

  /** The keys of an association list, in order. */
  function Keys<K, V>(d: seq<(K, V)>): seq<K>
  {
    seq(|d|, i requires 0 <= i < |d| => d[i].0)
  }

  predicate Distinct<K(==)>(s: seq<K>)
  {
    forall i, j :: 0 <= i < j < |s| ==> s[i] != s[j]
  }

  /** No key occurs twice: an association list that is a Python dict. */
  predicate DistinctKeys<K(==), V>(d: seq<(K, V)>)
  {
    Distinct(Keys(d))
  }

  /** The value that the last pair with key `k` carries, if any. */
  function LastValue<K(==), V>(d: seq<(K, V)>, k: K): Option<V>
  {
    if d == [] then None
    else if d[|d| - 1].0 == k then Some(d[|d| - 1].1)
    else LastValue(d[..|d| - 1], k)
  }

  /** The elements of `s` in order of first occurrence, each once. */
  function FirstSeen<K(==)>(s: seq<K>): seq<K>
  {
    if s == [] then []
    else
      var prefix := FirstSeen(s[..|s| - 1]);
      if s[|s| - 1] in s[..|s| - 1] then prefix else prefix + [s[|s| - 1]]
  }

  /** Index of the first occurrence of `x` in `s`. */
  function IndexOf<K(==)>(s: seq<K>, x: K): (i: nat)
    requires x in s
    ensures i < |s| && s[i] == x && x !in s[..i]
  {
    if s[0] == x then 0
    else
      assert s == [s[0]] + s[1..];
      var j := IndexOf(s[1..], x);
      assert s[..j + 1] == [s[0]] + s[1..][..j];
      j + 1
  }

  /** `d[k] = v`: overwrite in place when `k` is present, append otherwise. */
  function Put<K(==), V>(d: seq<(K, V)>, k: K, v: V): seq<(K, V)>
  {
    if k in Keys(d) then d[IndexOf(Keys(d), k) := (k, v)] else d + [(k, v)]
  }

  /** `dict(items)`: the items put one after the other into an empty dict. */
  function DictOf<K(==), V>(items: seq<(K, V)>): seq<(K, V)>
  {
    if items == [] then []
    else Put(DictOf(items[..|items| - 1]), items[|items| - 1].0, items[|items| - 1].1)
  }

  lemma DictOfSingleton<K, V>(x: (K, V))
    ensures DictOf([x]) == [x]
  {
    var none: seq<(K, V)> := [];
    assert [x][..0] == none;
    assert Keys(none) == [];
  }

  lemma KeysAppend<K, V>(a: seq<(K, V)>, b: seq<(K, V)>)
    ensures Keys(a + b) == Keys(a) + Keys(b)
  {
  }

  lemma KeysPrefix<K, V>(d: seq<(K, V)>, n: nat)
    requires n <= |d|
    ensures Keys(d[..n]) == Keys(d)[..n]
  {
  }

  /** A key is looked up in `a + b` in `b` first, then in `a`. */
  lemma {:induction false} LastValueAppend<K, V>(a: seq<(K, V)>, b: seq<(K, V)>, k: K)
    ensures LastValue(a + b, k) == if LastValue(b, k).Some? then LastValue(b, k) else LastValue(a, k)
  {
    if b != [] {
      assert (a + b)[..|a + b| - 1] == a + b[..|b| - 1];
      LastValueAppend(a, b[..|b| - 1], k);
    } else {
      assert a + b == a;
    }
  }

  /** A key has a last value exactly when it occurs; in a dict with distinct keys it is the value beside it. */
  lemma {:induction false} LastValueDistinct<K, V>(d: seq<(K, V)>, k: K)
    ensures LastValue(d, k).Some? <==> k in Keys(d)
    ensures DistinctKeys(d) ==> forall i :: 0 <= i < |d| && d[i].0 == k ==> LastValue(d, k) == Some(d[i].1)
  {
    if d != [] {
      var p := d[..|d| - 1];
      LastValueDistinct(p, k);
      KeysPrefix(d, |d| - 1);
      assert Keys(d) == Keys(p) + [d[|d| - 1].0];
      if DistinctKeys(d) {
        assert DistinctKeys(p) by {
          forall i, j | 0 <= i < j < |p| ensures Keys(p)[i] != Keys(p)[j] {
            assert Keys(d)[i] == Keys(p)[i] && Keys(d)[j] == Keys(p)[j];
          }
        }
        forall i | 0 <= i < |p| && p[i].0 == k ensures d[|d| - 1].0 != k {
          assert Keys(d)[i] == k && Keys(d)[|d| - 1] == d[|d| - 1].0;
        }
      }
    }
  }

  lemma {:induction false} FirstSeenMembers<K>(s: seq<K>)
    ensures forall x :: x in FirstSeen(s) <==> x in s
    ensures Distinct(FirstSeen(s))
  {
    if s != [] {
      var p := s[..|s| - 1];
      FirstSeenMembers(p);
      assert s == p + [s[|s| - 1]];
    }
  }

  /** Deduplicating a sequence without repetitions changes nothing. */
  lemma {:induction false} FirstSeenOfDistinct<K>(s: seq<K>)
    requires Distinct(s)
    ensures FirstSeen(s) == s
  {
    if s != [] {
      var p := s[..|s| - 1];
      FirstSeenOfDistinct(p);
      assert s == p + [s[|s| - 1]];
    }
  }

  /** Deduplicating the left operand first does not change the result. */
  lemma {:induction false} FirstSeenAbsorbLeft<K>(a: seq<K>, b: seq<K>)
    ensures FirstSeen(FirstSeen(a) + b) == FirstSeen(a + b)
  {
    FirstSeenMembers(a);
    if b == [] {
      assert FirstSeen(a) + b == FirstSeen(a);
      assert a + b == a;
      FirstSeenOfDistinct(FirstSeen(a));
    } else {
      var b' := b[..|b| - 1];
      var x := b[|b| - 1];
      FirstSeenAbsorbLeft(a, b');
      assert (FirstSeen(a) + b)[..|FirstSeen(a) + b| - 1] == FirstSeen(a) + b';
      assert (a + b)[..|a + b| - 1] == a + b';
      assert x in FirstSeen(a) + b' <==> x in a + b';
    }
  }

  /** Deduplicating the right operand first does not change the result. */
  lemma {:induction false} FirstSeenAbsorbRight<K>(a: seq<K>, b: seq<K>)
    ensures FirstSeen(a + FirstSeen(b)) == FirstSeen(a + b)
  {
    if b == [] {
      assert a + b == a;
      assert a + FirstSeen(b) == a;
    } else {
      var b' := b[..|b| - 1];
      var x := b[|b| - 1];
      FirstSeenAbsorbRight(a, b');
      FirstSeenMembers(b');
      assert b == b' + [x];
      assert (a + b)[..|a + b| - 1] == a + b';
      if x in b' {
        assert FirstSeen(b) == FirstSeen(b');
        assert x in a + b';
      } else {
        assert FirstSeen(b) == FirstSeen(b') + [x];
        assert a + FirstSeen(b) == (a + FirstSeen(b')) + [x];
        assert x in a + FirstSeen(b') <==> x in a + b';
      }
    }
  }

  lemma {:induction false} PutSpec<K, V>(d: seq<(K, V)>, k: K, v: V)
    requires DistinctKeys(d)
    ensures DistinctKeys(Put(d, k, v))
    ensures Keys(Put(d, k, v)) == if k in Keys(d) then Keys(d) else Keys(d) + [k]
    ensures forall k' :: LastValue(Put(d, k, v), k') == if k' == k then Some(v) else LastValue(d, k')
  {
    var r := Put(d, k, v);
    if k in Keys(d) {
      var i := IndexOf(Keys(d), k);
      assert r == d[i := (k, v)];
      assert Keys(r) == Keys(d);
      forall k' ensures LastValue(r, k') == if k' == k then Some(v) else LastValue(d, k') {
        LastValueDistinct(r, k');
        LastValueDistinct(d, k');
        if k' != k && k' in Keys(d) {
          var j := IndexOf(Keys(d), k');
          assert r[j] == d[j];
        }
      }
    } else {
      KeysAppend(d, [(k, v)]);
      forall i | 0 <= i < |d| ensures r[i].0 != k {
        assert Keys(d)[i] == d[i].0;
      }
      forall k' ensures LastValue(r, k') == if k' == k then Some(v) else LastValue(d, k') {
        assert r[..|r| - 1] == d;
      }
    }
  }

  /**
   * What `dict(items)` is: its keys are distinct, they appear in the order in
   * which `items` first mentions them, and each key takes the value of the last
   * pair that mentions it.
   */
  lemma {:induction false} DictOfSpec<K, V>(items: seq<(K, V)>)
    ensures DistinctKeys(DictOf(items))
    ensures Keys(DictOf(items)) == FirstSeen(Keys(items))
    ensures forall k :: LastValue(DictOf(items), k) == LastValue(items, k)
  {
    if items != [] {
      var p := items[..|items| - 1];
      var (k, v) := items[|items| - 1];
      DictOfSpec(p);
      PutSpec(DictOf(p), k, v);
      KeysPrefix(items, |items| - 1);
      FirstSeenMembers(Keys(p));
      forall k' ensures LastValue(DictOf(items), k') == LastValue(items, k') {
      }
    }
  }

  /** Two dicts with distinct keys, the same key order and the same lookups are equal. */
  lemma DictExtensionality<K, V>(d1: seq<(K, V)>, d2: seq<(K, V)>)
    requires DistinctKeys(d1) && DistinctKeys(d2)
    requires Keys(d1) == Keys(d2)
    requires forall k :: LastValue(d1, k) == LastValue(d2, k)
    ensures d1 == d2
  {
    assert |d1| == |Keys(d1)|;
    forall i | 0 <= i < |d1| ensures d1[i] == d2[i] {
      var k := d1[i].0;
      assert Keys(d1)[i] == Keys(d2)[i];
      LastValueDistinct(d1, k);
      LastValueDistinct(d2, k);
    }
  }

  /** Building a dict from a dict that already has distinct keys returns it unchanged. */
  lemma DictOfDistinct<K, V>(d: seq<(K, V)>)
    requires DistinctKeys(d)
    ensures DictOf(d) == d
  {
    DictOfSpec(d);
    assert Distinct(Keys(d));
    FirstSeenOfDistinct(Keys(d));
    DictExtensionality(DictOf(d), d);
  }

  /**
   * `dict(a + b)` depends on `a` and `b` only through `dict(a)` and `dict(b)`:
   * so a sub-dict may be spliced in as a dict or as its raw items.
   */
  lemma DictOfConcat<K, V>(a: seq<(K, V)>, a': seq<(K, V)>, b: seq<(K, V)>, b': seq<(K, V)>)
    requires DictOf(a) == DictOf(a') && DictOf(b) == DictOf(b')
    ensures DictOf(a + b) == DictOf(a' + b')
  {
    DictOfSpec(a); DictOfSpec(a'); DictOfSpec(b); DictOfSpec(b');
    DictOfSpec(a + b); DictOfSpec(a' + b');
    KeysAppend(a, b); KeysAppend(a', b');
    calc {
      FirstSeen(Keys(a) + Keys(b));
      { FirstSeenAbsorbLeft(Keys(a), Keys(b)); FirstSeenAbsorbRight(FirstSeen(Keys(a)), Keys(b)); }
      FirstSeen(FirstSeen(Keys(a)) + FirstSeen(Keys(b)));
      { FirstSeenAbsorbLeft(Keys(a'), Keys(b')); FirstSeenAbsorbRight(FirstSeen(Keys(a')), Keys(b')); }
      FirstSeen(Keys(a') + Keys(b'));
    }
    forall k ensures LastValue(a + b, k) == LastValue(a' + b', k) {
      LastValueAppend(a, b, k);
      LastValueAppend(a', b', k);
    }
    DictExtensionality(DictOf(a + b), DictOf(a' + b'));
  }
}
