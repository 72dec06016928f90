/** Feature dictionaries and the three ways the core flattens one into a
    vector of numbers before hashing it. */
module Features {
  import opened Base

  /** The kinds of value a feature dictionary holds. */
  datatype FeatureValue =
    | Num(x: real)                  // a Python int or float (np.float64 included)
    | Floats(xs: seq<real>)         // a Python list of numbers
    | Nested(rows: seq<seq<real>>)  // a Python list of lists or tuples, such as [[f, t], ...]
    | Array(xs: seq<real>)          // an np.ndarray, by its elements in flatten() order
    | Other                         // anything else: a string, None, a dict

  /** A Python dict, as its items in insertion order. */
  type Dict = seq<(string, FeatureValue)>

  predicate DistinctKeys(d: Dict)
  {
    forall i, j :: 0 <= i < j < |d| ==> d[i].0 != d[j].0
  }

  // Python's ordering of str: code point by code point, a proper prefix first.

  predicate LexLess(a: string, b: string)
  {
    if a == [] then b != []
    else if b == [] then false
    else if a[0] != b[0] then a[0] < b[0]
    else LexLess(a[1..], b[1..])
  }

  lemma {:induction false} LexIrreflexive(a: string)
    ensures !LexLess(a, a)
  {
    if a != [] {
      LexIrreflexive(a[1..]);
    }
  }

  lemma {:induction false} LexAsymmetric(a: string, b: string)
    ensures !(LexLess(a, b) && LexLess(b, a))
  {
    if a != [] && b != [] && a[0] == b[0] {
      LexAsymmetric(a[1..], b[1..]);
    }
  }

  lemma {:induction false} LexTotal(a: string, b: string)
    ensures a == b || LexLess(a, b) || LexLess(b, a)
  {
    if a != [] && b != [] && a[0] == b[0] {
      LexTotal(a[1..], b[1..]);
      if a[1..] == b[1..] {
        assert a == [a[0]] + a[1..] && b == [b[0]] + b[1..];
      }
    }
  }

  lemma {:induction false} LexTransitive(a: string, b: string, c: string)
    requires LexLess(a, b) && LexLess(b, c)
    ensures LexLess(a, c)
  {
    if a != [] && a[0] == b[0] && b[0] == c[0] {
      LexTransitive(a[1..], b[1..], c[1..]);
    }
  }

  // sorted(d.items()): the items in increasing key order.

  /** Keys strictly increasing. */
  predicate KeySorted(d: Dict)
  {
    forall i, j :: 0 <= i < j < |d| ==> LexLess(d[i].0, d[j].0)
  }

  function InsertItem(x: (string, FeatureValue), s: Dict): (r: Dict)
    ensures |r| == |s| + 1
  {
    if s == [] || !LexLess(s[0].0, x.0) then [x] + s else [s[0]] + InsertItem(x, s[1..])
  }

  function SortItems(d: Dict): (r: Dict)
    ensures |r| == |d|
  {
    if d == [] then [] else InsertItem(d[0], SortItems(d[1..]))
  }

  lemma {:induction false} InsertItemMembers(x: (string, FeatureValue), s: Dict)
    ensures multiset(InsertItem(x, s)) == multiset(s) + multiset{x}
    ensures forall e :: e in InsertItem(x, s) ==> e == x || e in s
  {
    if s != [] && LexLess(s[0].0, x.0) {
      InsertItemMembers(x, s[1..]);
      assert s == [s[0]] + s[1..];
    }
  }

  lemma {:induction false} InsertItemSorted(x: (string, FeatureValue), s: Dict)
    requires KeySorted(s)
    requires forall e :: e in s ==> e.0 != x.0
    ensures KeySorted(InsertItem(x, s))
  {
    if s == [] {
    } else if !LexLess(s[0].0, x.0) {
      LexTotal(s[0].0, x.0);
      var r := InsertItem(x, s);
      forall i, j | 0 <= i < j < |r| ensures LexLess(r[i].0, r[j].0) {
        if i == 0 && j > 1 {
          LexTransitive(x.0, s[0].0, s[j - 1].0);
        }
      }
    } else {
      assert KeySorted(s[1..]) by {
        forall i, j | 0 <= i < j < |s[1..]| ensures LexLess(s[1..][i].0, s[1..][j].0) {
          assert s[1..][i] == s[i + 1] && s[1..][j] == s[j + 1];
        }
      }
      InsertItemSorted(x, s[1..]);
      InsertItemMembers(x, s[1..]);
      var r := InsertItem(x, s);
      forall i, j | 0 <= i < j < |r| ensures LexLess(r[i].0, r[j].0) {
        if i == 0 {
          var e := r[j];
          assert e in InsertItem(x, s[1..]);
          if e != x {
            var k :| 0 <= k < |s[1..]| && s[1..][k] == e;
            assert s[k + 1] == e;
          }
        }
      }
    }
  }

  /** `sorted(d.items())` holds the same items as `d`, in increasing key order. */
  lemma {:induction false} SortItemsSpec(d: Dict)
    requires DistinctKeys(d)
    ensures KeySorted(SortItems(d))
    ensures multiset(SortItems(d)) == multiset(d)
  {
    if d != [] {
      var t := d[1..];
      assert DistinctKeys(t) by {
        forall i, j | 0 <= i < j < |t| ensures t[i].0 != t[j].0 {
          assert t[i] == d[i + 1] && t[j] == d[j + 1];
        }
      }
      SortItemsSpec(t);
      forall e | e in SortItems(t) ensures e.0 != d[0].0 {
        assert e in multiset(t);
        var k :| 0 <= k < |t| && t[k] == e;
        assert d[k + 1] == e;
      }
      InsertItemSorted(d[0], SortItems(t));
      InsertItemMembers(d[0], SortItems(t));
      assert d == [d[0]] + t;
    }
  }

  lemma KeySortedTail(a: Dict)
    requires KeySorted(a) && a != []
    ensures KeySorted(a[1..])
  {
    forall p, q | 0 <= p < q < |a[1..]| ensures LexLess(a[1..][p].0, a[1..][q].0) {
      assert a[1..][p] == a[p + 1] && a[1..][q] == a[q + 1];
    }
  }

  /** The first item of a key-sorted list is fixed by its items. */
  lemma KeySortedHead(a: Dict, b: Dict)
    requires KeySorted(a) && KeySorted(b) && multiset(a) == multiset(b) && a != []
    ensures b != [] && a[0] == b[0]
  {
    assert a[0] in multiset(b);
    var i :| 0 <= i < |b| && b[i] == a[0];
    assert b[0] in multiset(a);
    var j :| 0 <= j < |a| && a[j] == b[0];
    if a[0] != b[0] {
      assert LexLess(b[0].0, a[0].0) && LexLess(a[0].0, b[0].0);
      LexAsymmetric(a[0].0, b[0].0);
      assert false;
    }
  }

  /** Two key-sorted item lists holding the same items are the same list. */
  lemma {:induction false} KeySortedUnique(a: Dict, b: Dict)
    requires KeySorted(a) && KeySorted(b) && multiset(a) == multiset(b)
    ensures a == b
  {
    if a == [] {
      assert |multiset(b)| == 0;
    } else {
      KeySortedHead(a, b);
      assert a == [a[0]] + a[1..] && b == [b[0]] + b[1..];
      assert multiset(a[1..]) == multiset(a) - multiset{a[0]};
      assert multiset(b[1..]) == multiset(b) - multiset{b[0]};
      KeySortedTail(a);
      KeySortedTail(b);
      KeySortedUnique(a[1..], b[1..]);
    }
  }

  /** Dicts with the same items, whatever their insertion order, sort alike. */
  lemma SortItemsOrderFree(d1: Dict, d2: Dict)
    requires DistinctKeys(d1) && DistinctKeys(d2) && multiset(d1) == multiset(d2)
    ensures SortItems(d1) == SortItems(d2)
  {
    SortItemsSpec(d1);
    SortItemsSpec(d2);
    KeySortedUnique(SortItems(d1), SortItems(d2));
  }

  // What one value contributes under each flattening rule. A nested list
  // spliced into the vector makes numpy build something other than a flat
  // vector of numbers; the model stops there with MixedShapes.

  /** `flatten_and_normalize`: int and float appended, lists spliced, anything else skipped. */
  function ScalarOrList(v: FeatureValue): Result<seq<real>>
  {
    match v
    case Num(x) => Success([x])
    case Floats(xs) => Success(xs)
    case Nested(rows) => if rows == [] then Success([]) else Failure(MixedShapes)
    case Array(_) => Success([])
    case Other => Success([])
  }

  /** `perceptual_hash` of the search modules: only np.ndarray values, flattened. */
  function ArrayOnly(v: FeatureValue): seq<real>
  {
    if v.Array? then v.xs else []
  }

  /** `perceptual_hash` of the database drafts: lists spliced, every other value appended. */
  function ListOrAppend(v: FeatureValue): Result<seq<real>>
  {
    match v
    case Num(x) => Success([x])
    case Floats(xs) => Success(xs)
    case Nested(rows) => if rows == [] then Success([]) else Failure(MixedShapes)
    case Array(_) => Failure(MixedShapes)
    case Other => Failure(MixedShapes)
  }

  function FlattenScalarsLists(items: Dict): Result<seq<real>>
  {
    if items == [] then Success([])
    else
      var head :- ScalarOrList(items[0].1);
      var rest :- FlattenScalarsLists(items[1..]);
      Success(head + rest)
  }

  function FlattenArrays(items: Dict): seq<real>
  {
    if items == [] then [] else ArrayOnly(items[0].1) + FlattenArrays(items[1..])
  }

  function FlattenListOrAppend(items: Dict): Result<seq<real>>
  {
    if items == [] then Success([])
    else
      var head :- ListOrAppend(items[0].1);
      var rest :- FlattenListOrAppend(items[1..]);
      Success(head + rest)
  }

  /** The vector `flatten_and_normalize` builds before normalising: sorted keys. */
  function FlattenSorted(d: Dict): Result<seq<real>>
  {
    FlattenScalarsLists(SortItems(d))
  }

  /** Appending one more item appends its contribution (the loop's step). */
  lemma {:induction false} FlattenScalarsListsSnoc(items: Dict, x: (string, FeatureValue))
    ensures FlattenScalarsLists(items + [x]) ==
      (if FlattenScalarsLists(items).Failure? then FlattenScalarsLists(items)
       else if ScalarOrList(x.1).Failure? then ScalarOrList(x.1)
       else Success(FlattenScalarsLists(items).value + ScalarOrList(x.1).value))
  {
    if items == [] {
      assert items + [x] == [x] && [x][1..] == [];
      var h := ScalarOrList(x.1);
      if h.Success? {
        assert h.value + [] == h.value == [] + h.value;
      }
    } else {
      var ys := items + [x];
      assert ys[0] == items[0] && ys[1..] == items[1..] + [x];
      FlattenScalarsListsSnoc(items[1..], x);
      var h := ScalarOrList(items[0].1);
      if h.Success? {
        var r := FlattenScalarsLists(items[1..]);
        if r.Success? && ScalarOrList(x.1).Success? {
          assert h.value + (r.value + ScalarOrList(x.1).value) == (h.value + r.value) + ScalarOrList(x.1).value;
        }
      }
    }
  }


  lemma {:induction false} FlattenArraysSnoc(items: Dict, x: (string, FeatureValue))
    ensures FlattenArrays(items + [x]) == FlattenArrays(items) + ArrayOnly(x.1)
  {
    if items == [] {
      assert [x][1..] == [];
    } else {
      assert (items + [x])[1..] == items[1..] + [x];
      FlattenArraysSnoc(items[1..], x);
    }
  }

  lemma {:induction false} FlattenListOrAppendSnoc(items: Dict, x: (string, FeatureValue))
    ensures FlattenListOrAppend(items + [x]) ==
      (if FlattenListOrAppend(items).Failure? then FlattenListOrAppend(items)
       else if ListOrAppend(x.1).Failure? then ListOrAppend(x.1)
       else Success(FlattenListOrAppend(items).value + ListOrAppend(x.1).value))
  {
    if items == [] {
      assert items + [x] == [x] && [x][1..] == [];
      var h := ListOrAppend(x.1);
      if h.Success? {
        assert h.value + [] == h.value == [] + h.value;
      }
    } else {
      var ys := items + [x];
      assert ys[0] == items[0] && ys[1..] == items[1..] + [x];
      FlattenListOrAppendSnoc(items[1..], x);
      var h := ListOrAppend(items[0].1);
      if h.Success? {
        var r := FlattenListOrAppend(items[1..]);
        if r.Success? && ListOrAppend(x.1).Success? {
          assert h.value + (r.value + ListOrAppend(x.1).value) == (h.value + r.value) + ListOrAppend(x.1).value;
        }
      }
    }
  }


  /** The sorted flattening does not depend on insertion order. */
  lemma FlattenSortedOrderFree(d1: Dict, d2: Dict)
    requires DistinctKeys(d1) && DistinctKeys(d2) && multiset(d1) == multiset(d2)
    ensures FlattenSorted(d1) == FlattenSorted(d2)
  {
    SortItemsOrderFree(d1, d2);
  }

  /** The array-only flattening does: the same two arrays, inserted in the
      other order, give a different vector. */
  lemma FlattenArraysOrderMatters()
    ensures var d1: Dict := [("a", Array([1.0])), ("b", Array([2.0]))];
            var d2: Dict := [("b", Array([2.0])), ("a", Array([1.0]))];
            multiset(d1) == multiset(d2) && FlattenArrays(d1) == [1.0, 2.0] && FlattenArrays(d2) == [2.0, 1.0]
  {
    var d1: Dict := [("a", Array([1.0])), ("b", Array([2.0]))];
    var d2: Dict := [("b", Array([2.0])), ("a", Array([1.0]))];
    assert d1[1..] == [("b", Array([2.0]))] && d2[1..] == [("a", Array([1.0]))];
    assert multiset(d1) == multiset(d2) by {
      assert d1 == [d1[0]] + [d1[1]] && d2 == [d1[1]] + [d1[0]];
    }
  }

  /** Values that are not arrays add nothing to the array-only flattening. */
  lemma {:induction false} FlattenArraysIgnoresOthers(items: Dict)
    requires forall i :: 0 <= i < |items| ==> !items[i].1.Array?
    ensures FlattenArrays(items) == []
  {
    if items != [] {
      assert forall i :: 0 <= i < |items[1..]| ==> items[1..][i] == items[i + 1];
      FlattenArraysIgnoresOthers(items[1..]);
    }
  }

  /** Values that are not numbers or lists add nothing to the sorted flattening. */
  lemma {:induction false} FlattenScalarsListsIgnoresOthers(items: Dict)
    requires forall i :: 0 <= i < |items| ==> items[i].1.Array? || items[i].1.Other?
    ensures FlattenScalarsLists(items) == Success([])
  {
    if items != [] {
      assert forall i :: 0 <= i < |items[1..]| ==> items[1..][i] == items[i + 1];
      FlattenScalarsListsIgnoresOthers(items[1..]);
      assert ScalarOrList(items[0].1) == Success([]);
      var e: seq<real> := [];
      assert e + e == e;
    }
  }

  /** An ndarray or other value anywhere among the items leaves the sorted
      flattening as it would be without it. */
  lemma {:induction false} SkippedValueScalarsLists(a: Dict, x: (string, FeatureValue), b: Dict)
    requires x.1.Array? || x.1.Other?
    ensures FlattenScalarsLists(a + [x] + b) == FlattenScalarsLists(a + b)
  {
    if a == [] {
      assert a + [x] + b == [x] + b && ([x] + b)[1..] == b && a + b == b;
      var r := FlattenScalarsLists(b);
      if r.Success? {
        assert [] + r.value == r.value;
      }
    } else {
      assert (a + [x] + b)[0] == a[0] == (a + b)[0];
      assert (a + [x] + b)[1..] == a[1..] + [x] + b;
      assert (a + b)[1..] == a[1..] + b;
      SkippedValueScalarsLists(a[1..], x, b);
    }
  }

  /** A value that is not an ndarray, anywhere among the items, leaves the
      array-only flattening as it would be without it. */
  lemma {:induction false} SkippedValueArrays(a: Dict, x: (string, FeatureValue), b: Dict)
    requires !x.1.Array?
    ensures FlattenArrays(a + [x] + b) == FlattenArrays(a + b)
  {
    if a == [] {
      assert a + [x] + b == [x] + b && ([x] + b)[1..] == b && a + b == b;
      assert [] + FlattenArrays(b) == FlattenArrays(b);
    } else {
      assert (a + [x] + b)[0] == a[0] == (a + b)[0];
      assert (a + [x] + b)[1..] == a[1..] + [x] + b;
      assert (a + b)[1..] == a[1..] + b;
      SkippedValueArrays(a[1..], x, b);
    }
  }

  /** `InsertItem` puts the item somewhere into the list and moves nothing else. */
  lemma {:induction false} InsertItemSplit(x: (string, FeatureValue), s: Dict) returns (k: nat)
    ensures k <= |s| && InsertItem(x, s) == s[..k] + [x] + s[k..]
  {
    if s == [] || !LexLess(s[0].0, x.0) {
      k := 0;
      assert s[..0] == [] && s[0..] == s;
    } else {
      var k' := InsertItemSplit(x, s[1..]);
      k := k' + 1;
      assert s[..k] == [s[0]] + s[1..][..k'];
      assert s[k..] == s[1..][k'..];
    }
  }

  /** The sorted flattening of a dict is the same with or without an
      ndarray or other value, wherever it was inserted. */
  lemma SortedFlattenSkipsOthers(x: (string, FeatureValue), d: Dict)
    requires x.1.Array? || x.1.Other?
    ensures FlattenSorted([x] + d) == FlattenSorted(d)
  {
    assert ([x] + d)[0] == x && ([x] + d)[1..] == d;
    var s := SortItems(d);
    var k := InsertItemSplit(x, s);
    SkippedValueScalarsLists(s[..k], x, s[k..]);
    assert s[..k] + s[k..] == s;
  }

  /** Moving one item of a dict to the front keeps its keys distinct. */
  lemma ToFrontDistinct(a: Dict, x: (string, FeatureValue), b: Dict)
    requires DistinctKeys(a + [x] + b)
    ensures DistinctKeys([x] + (a + b)) && multiset(a + [x] + b) == multiset([x] + (a + b))
  {
    var d := a + [x] + b;
    var e := [x] + (a + b);
    forall i, j | 0 <= i < j < |e| ensures e[i].0 != e[j].0 {
      var pi := if i == 0 then |a| else if i - 1 < |a| then i - 1 else i;
      var pj := if j - 1 < |a| then j - 1 else j;
      assert e[i] == d[pi] && e[j] == d[pj] && pi != pj;
      if pi < pj {
        assert d[pi].0 != d[pj].0;
      } else {
        assert d[pj].0 != d[pi].0;
      }
    }
    calc {
      multiset(d);
      multiset(a) + multiset([x]) + multiset(b);
      multiset([x]) + multiset(a + b);
      multiset(e);
    }
  }
}
