/** The min-max helpers of draft.py: column-wise min-max of a list of
    equal-length rows, done in place through a stacked matrix, the element-wise
    min-max of one list, and the `normalize` loop that applies the first to
    every list. */
module Draft {
  import opened Base
  import opened Vectors

  /** Rows `np.stack` can stack: at least one, all of one length. */
  predicate Stackable(rows: seq<seq<real>>)
  {
    rows != [] && forall j :: 0 <= j < |rows| ==> |rows[j]| == |rows[0]|
  }

  /** `matrix[:, i]`. */
  function ColumnOf(rows: seq<seq<real>>, i: nat): (c: seq<real>)
    requires forall j :: 0 <= j < |rows| ==> i < |rows[j]|
    ensures |c| == |rows| && forall j :: 0 <= j < |rows| ==> c[j] == rows[j][i]
  {
    seq(|rows|, j requires 0 <= j < |rows| => rows[j][i])
  }

  function ColMin(rows: seq<seq<real>>, i: nat): real
    requires Stackable(rows) && i < |rows[0]|
  {
    MinOf(ColumnOf(rows, i))
  }

  function ColMax(rows: seq<seq<real>>, i: nat): real
    requires Stackable(rows) && i < |rows[0]|
  {
    MaxOf(ColumnOf(rows, i))
  }

  /** One entry after the column loop: `(x - min) / (max - min)`, or 0 in a
      column whose maximum equals its minimum. */
  function Scaled(x: real, lo: real, hi: real): real
  {
    if hi != lo then (x - lo) / (hi - lo) else 0.0
  }

  /** The rows `min_max_complex_normalize` leaves behind. */
  function ColumnNormalized(rows: seq<seq<real>>): (r: seq<seq<real>>)
    requires Stackable(rows)
    ensures |r| == |rows| && forall j :: 0 <= j < |r| ==> |r[j]| == |rows[j]|
    ensures forall j, i :: 0 <= j < |rows| && 0 <= i < |rows[0]| ==>
      r[j][i] == Scaled(rows[j][i], ColMin(rows, i), ColMax(rows, i))
  {
    seq(|rows|, j requires 0 <= j < |rows| =>
      seq(|rows[0]|, i requires 0 <= i < |rows[0]| => Scaled(rows[j][i], ColMin(rows, i), ColMax(rows, i))))
  }

  /** Every entry lies in [0, 1]; in a column that is not constant the
      column minimum becomes 0 and the maximum 1; a constant column becomes 0. */
  lemma ColumnNormalizedSpec(rows: seq<seq<real>>, j: nat, i: nat)
    requires Stackable(rows) && j < |rows| && i < |rows[0]|
    ensures var r := ColumnNormalized(rows);
      0.0 <= r[j][i] <= 1.0 &&
      (ColMax(rows, i) != ColMin(rows, i) && rows[j][i] == ColMin(rows, i) ==> r[j][i] == 0.0) &&
      (ColMax(rows, i) != ColMin(rows, i) && rows[j][i] == ColMax(rows, i) ==> r[j][i] == 1.0) &&
      (ColMax(rows, i) == ColMin(rows, i) ==> r[j][i] == 0.0)
  {
    var lo, hi := ColMin(rows, i), ColMax(rows, i);
    var c := ColumnOf(rows, i);
    assert c[j] == rows[j][i];
    assert lo <= rows[j][i] <= hi;
    if hi != lo {
      ScaledEntry(rows[j][i], lo, hi);
    }
  }

  /** A column that is not constant comes out with minimum 0 and maximum 1. */
  lemma NormalizedColumnExtremes(rows: seq<seq<real>>, i: nat)
    requires Stackable(rows) && i < |rows[0]| && ColMax(rows, i) != ColMin(rows, i)
    ensures Stackable(ColumnNormalized(rows))
    ensures ColMin(ColumnNormalized(rows), i) == 0.0 && ColMax(ColumnNormalized(rows), i) == 1.0
  {
    var r := ColumnNormalized(rows);
    var c := ColumnOf(rows, i);
    var nc := ColumnOf(r, i);
    var jlo :| 0 <= jlo < |c| && c[jlo] == MinOf(c);
    var jhi :| 0 <= jhi < |c| && c[jhi] == MaxOf(c);
    forall j | 0 <= j < |rows| ensures 0.0 <= nc[j] <= 1.0 {
      ColumnNormalizedSpec(rows, j, i);
    }
    ColumnNormalizedSpec(rows, jlo, i);
    ColumnNormalizedSpec(rows, jhi, i);
    MinIsLeast(nc, jlo);
    MaxIsGreatest(nc, jhi);
  }

  /** An element not above any other is the minimum. */
  lemma MinIsLeast(v: seq<real>, k: nat)
    requires k < |v| && forall j :: 0 <= j < |v| ==> v[k] <= v[j]
    ensures MinOf(v) == v[k]
  {
    var m := MinOf(v);
    var j :| 0 <= j < |v| && v[j] == m;
  }

  lemma MaxIsGreatest(v: seq<real>, k: nat)
    requires k < |v| && forall j :: 0 <= j < |v| ==> v[j] <= v[k]
    ensures MaxOf(v) == v[k]
  {
    var m := MaxOf(v);
    var j :| 0 <= j < |v| && v[j] == m;
  }

  /** A constant column comes out as all zeros, which is constant again. */
  lemma NormalizedConstantColumn(rows: seq<seq<real>>, i: nat)
    requires Stackable(rows) && i < |rows[0]| && ColMax(rows, i) == ColMin(rows, i)
    ensures Stackable(ColumnNormalized(rows))
    ensures ColMin(ColumnNormalized(rows), i) == 0.0 && ColMax(ColumnNormalized(rows), i) == 0.0
  {
    var r := ColumnNormalized(rows);
    var nc := ColumnOf(r, i);
    forall j | 0 <= j < |rows| ensures nc[j] == 0.0 {
      ColumnNormalizedSpec(rows, j, i);
    }
    MinIsLeast(nc, 0);
    MaxIsGreatest(nc, 0);
  }

  /** Normalising twice is normalising once. */
  lemma ColumnNormalizedIdempotent(rows: seq<seq<real>>)
    requires Stackable(rows)
    ensures Stackable(ColumnNormalized(rows))
    ensures ColumnNormalized(ColumnNormalized(rows)) == ColumnNormalized(rows)
  {
    var r := ColumnNormalized(rows);
    var rr := ColumnNormalized(r);
    forall j | 0 <= j < |rows| ensures rr[j] == r[j] {
      forall i | 0 <= i < |rows[0]| ensures rr[j][i] == r[j][i] {
        IdempotentEntry(rows, j, i);
      }
    }
  }

  lemma IdempotentEntry(rows: seq<seq<real>>, j: nat, i: nat)
    requires Stackable(rows) && j < |rows| && i < |rows[0]|
    ensures Stackable(ColumnNormalized(rows))
    ensures ColumnNormalized(ColumnNormalized(rows))[j][i] == ColumnNormalized(rows)[j][i]
  {
    var r := ColumnNormalized(rows);
    var y := r[j][i];
    if ColMax(rows, i) != ColMin(rows, i) {
      NormalizedColumnExtremes(rows, i);
      assert ColumnNormalized(r)[j][i] == Scaled(y, 0.0, 1.0);
      assert (y - 0.0) / (1.0 - 0.0) == y;
    } else {
      NormalizedConstantColumn(rows, i);
      ColumnNormalizedSpec(rows, j, i);
      assert ColumnNormalized(r)[j][i] == Scaled(y, 0.0, 0.0);
    }
  }

  /** The rescaling of one value between a smaller `lo` and a larger `hi`. */
  lemma ScaledEntry(x: real, lo: real, hi: real)
    requires lo <= x <= hi && lo < hi
    ensures 0.0 <= (x - lo) / (hi - lo) <= 1.0
    ensures x == lo ==> (x - lo) / (hi - lo) == 0.0
    ensures x == hi ==> (x - lo) / (hi - lo) == 1.0
  {
    QuotientFacts(x - lo, hi - lo);
  }

  /** `min_max_complex_normalize(list_of_lists)`. The rows are stacked into a
      matrix, each column of the matrix is rescaled in place, and each row is
      written back over its sublist. Stacking no rows or rows of different
      lengths raises before anything changes. */
  method MinMaxComplexNormalize(lists: array<seq<real>>) returns (r: Result<()>)
    modifies lists
    ensures r.Success? <==> Stackable(old(lists[..]))
    ensures r.Failure? ==> r.error == StackFailed && lists[..] == old(lists[..])
    ensures r.Success? ==> lists[..] == ColumnNormalized(old(lists[..]))
  {
    var rows := lists[..];
    if !Stackable(rows) {
      return Failure(StackFailed);
    }
    var height, width := |rows|, |rows[0]|;
    ghost var target := ColumnNormalized(rows);
    var matrix := new real[height, width]((j, i) requires 0 <= j < height && 0 <= i < width => rows[j][i]);
    var minVals := seq(width, i requires 0 <= i < width => ColMin(rows, i));
    var maxVals := seq(width, i requires 0 <= i < width => ColMax(rows, i));
    for i := 0 to width
      invariant forall j, k :: 0 <= j < height && 0 <= k < width ==>
        matrix[j, k] == if k < i then target[j][k] else rows[j][k]
    {
      RescaleColumn(matrix, i, minVals[i], maxVals[i]);
    }
    WriteBack(lists, matrix);
    forall j | 0 <= j < height ensures lists[j] == target[j] {
      assert lists[j] == RowOf(matrix, j);
    }
    assert lists[..] == target;
    return Success(());
  }

  /** `matrix[j]` as a list. */
  function RowOf(matrix: array2<real>, j: nat): (row: seq<real>)
    requires j < matrix.Length0
    reads matrix
    ensures |row| == matrix.Length1 && forall i :: 0 <= i < matrix.Length1 ==> row[i] == matrix[j, i]
  {
    seq(matrix.Length1, i requires 0 <= i < matrix.Length1 reads matrix => matrix[j, i])
  }

  /** The write-back loop: `list_of_lists[j][:] = matrix[j]` for every row. */
  method WriteBack(lists: array<seq<real>>, matrix: array2<real>)
    requires lists.Length == matrix.Length0
    modifies lists
    ensures forall j :: 0 <= j < lists.Length ==> lists[j] == RowOf(matrix, j)
  {
    for j := 0 to lists.Length
      invariant forall k :: 0 <= k < j ==> lists[k] == RowOf(matrix, k)
    {
      lists[j] := RowOf(matrix, j);
    }
  }

  /** The column loop's body: `matrix[:, i]` becomes `(matrix[:, i] - lo) /
      (hi - lo)`, or zeros when `hi == lo`; every other column stays. */
  method RescaleColumn(matrix: array2<real>, i: nat, lo: real, hi: real)
    requires i < matrix.Length1
    modifies matrix
    ensures forall j, k :: 0 <= j < matrix.Length0 && 0 <= k < matrix.Length1 ==>
      matrix[j, k] == if k == i then Scaled(old(matrix[j, k]), lo, hi) else old(matrix[j, k])
  {
    if hi != lo {
      forall j | 0 <= j < matrix.Length0 {
        matrix[j, i] := (matrix[j, i] - lo) / (hi - lo);
      }
    } else {
      forall j | 0 <= j < matrix.Length0 {
        matrix[j, i] := 0.0;
      }
    }
  }

  /** The element-wise rescaling of `min_max_normalize(min, max, list)`. */
  function ScaledAll(v: seq<real>, lo: real, hi: real): (r: seq<real>)
    requires hi != lo
    ensures |r| == |v| && forall i :: 0 <= i < |v| ==> r[i] == (v[i] - lo) / (hi - lo)
  {
    if v == [] then [] else [(v[0] - lo) / (hi - lo)] + ScaledAll(v[1..], lo, hi)
  }

  /** `min_max_normalize(min, max, list)`: rewrites every element in place
      by the docstring formula. Python float division by zero raises at the
      first element, so an empty list is the only one `max == min` leaves alone. */
  method MinMaxNormalize(lo: real, hi: real, list: array<real>) returns (r: Result<()>)
    modifies list
    ensures r.Success? <==> list.Length == 0 || hi != lo
    ensures r.Failure? ==> r.error == ZeroDivision && list[..] == old(list[..])
    ensures r.Success? && hi != lo ==> list[..] == ScaledAll(old(list[..]), lo, hi)
    ensures list.Length == 0 ==> list[..] == old(list[..])
  {
    if list.Length > 0 && hi == lo {
      return Failure(ZeroDivision);
    }
    for i := 0 to list.Length
      invariant forall k :: 0 <= k < i ==> list[k] == (old(list[k]) - lo) / (hi - lo)
      invariant forall k :: i <= k < list.Length ==> list[k] == old(list[k])
    {
      list[i] := (list[i] - lo) / (hi - lo);
    }
    return Success(());
  }

  /** Called with the list's own minimum and maximum, the values land in
      [0, 1] with the minimum at 0 and the maximum at 1. */
  lemma ScaledAllSpec(v: seq<real>)
    requires v != [] && MinOf(v) != MaxOf(v)
    ensures var r := ScaledAll(v, MinOf(v), MaxOf(v));
      (forall i :: 0 <= i < |v| ==> 0.0 <= r[i] <= 1.0) &&
      (forall i :: 0 <= i < |v| && v[i] == MinOf(v) ==> r[i] == 0.0) &&
      (forall i :: 0 <= i < |v| && v[i] == MaxOf(v) ==> r[i] == 1.0)
  {
    ScaledAllBetween(v, MinOf(v), MaxOf(v));
  }

  lemma ScaledAllBetween(v: seq<real>, lo: real, hi: real)
    requires lo < hi && forall i :: 0 <= i < |v| ==> lo <= v[i] <= hi
    ensures var r := ScaledAll(v, lo, hi);
      forall i :: 0 <= i < |v| ==>
        0.0 <= r[i] <= 1.0 && (v[i] == lo ==> r[i] == 0.0) && (v[i] == hi ==> r[i] == 1.0)
  {
    var r := ScaledAll(v, lo, hi);
    forall i | 0 <= i < |v|
      ensures 0.0 <= r[i] <= 1.0 && (v[i] == lo ==> r[i] == 0.0) && (v[i] == hi ==> r[i] == 1.0)
    {
      ScaledEntry(v[i], lo, hi);
    }
  }

  /** `normalize(feature_3d)`. Its test `if complex:` reads the builtin type
      `complex`, which is always true, so every list of lists goes through
      `min_max_complex_normalize`; the first one that cannot be stacked raises,
      leaving the lists before it normalised and the others as they were.
      Lists that occur twice are normalised twice, which changes nothing more. */
  method Normalize(feature3d: seq<array<seq<real>>>) returns (r: Result<()>)
    modifies set a | a in feature3d
    ensures r.Success? <==> forall k :: 0 <= k < |feature3d| ==> Stackable(old(feature3d[k][..]))
    ensures r.Failure? ==> r.error == StackFailed
    ensures r.Success? ==> forall k :: 0 <= k < |feature3d| ==>
      feature3d[k][..] == ColumnNormalized(old(feature3d[k][..]))
    ensures r.Failure? ==>
      exists n ::
        0 <= n < |feature3d| && !Stackable(old(feature3d[n][..])) &&
        (forall k :: 0 <= k < n ==> Stackable(old(feature3d[k][..]))) &&
        (forall k :: 0 <= k < |feature3d| ==>
          feature3d[k][..] == if Processed(feature3d, n, k) then ColumnNormalized(old(feature3d[k][..])) else old(feature3d[k][..]))
  {
    for n := 0 to |feature3d|
      invariant forall k :: 0 <= k < n ==> Stackable(old(feature3d[k][..]))
      invariant forall k :: 0 <= k < |feature3d| ==>
        if Processed(feature3d, n, k) then Stackable(old(feature3d[k][..])) &&
          feature3d[k][..] == ColumnNormalized(old(feature3d[k][..]))
        else feature3d[k][..] == old(feature3d[k][..])
    {
      var current := feature3d[n];
      ghost var before := current[..];
      if Processed(feature3d, n, n) {
        ColumnNormalizedIdempotent(old(current[..]));
      }
      var step := MinMaxComplexNormalize(current);
      if step.Failure? {
        assert !Processed(feature3d, n, n);
        assert before == old(feature3d[n][..]) && !Stackable(before);
        assert forall k :: 0 <= k < |feature3d| ==>
          feature3d[k][..] == if Processed(feature3d, n, k) then ColumnNormalized(old(feature3d[k][..])) else old(feature3d[k][..]);
        return step;
      }
      forall k | 0 <= k < |feature3d|
        ensures if Processed(feature3d, n + 1, k) then Stackable(old(feature3d[k][..])) &&
          feature3d[k][..] == ColumnNormalized(old(feature3d[k][..]))
          else feature3d[k][..] == old(feature3d[k][..])
      {
        if feature3d[k] == current {
          assert Processed(feature3d, n + 1, k) by { assert feature3d[n] == feature3d[k]; }
        } else {
          assert Processed(feature3d, n + 1, k) == Processed(feature3d, n, k);
        }
      }
    }
    return Success(());
  }

  /** Whether the array at position `k` is one of the first `n` lists. */
  ghost predicate Processed(feature3d: seq<array<seq<real>>>, n: nat, k: nat)
  {
    exists m :: 0 <= m < n && m < |feature3d| && k < |feature3d| && feature3d[m] == feature3d[k]
  }
}
