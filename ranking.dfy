/** Ranking of scored entries as the digest searches do it: Python's
    `list.sort(key=lambda x: x[0])`, a stable sort on the score, followed by
    the slice `[:top_n]`. */
module Ranking {

  /** Non-decreasing in the score. */
  predicate SortedByKey<T>(s: seq<(real, T)>)
  {
    forall i, j :: 0 <= i < j < |s| ==> s[i].0 <= s[j].0
  }

  /** Place `x` before the first entry whose score is not below its own. */
  function Insert<T>(x: (real, T), s: seq<(real, T)>): (r: seq<(real, T)>)
    ensures |r| == |s| + 1
  {
    if s == [] || x.0 <= s[0].0 then [x] + s else [s[0]] + Insert(x, s[1..])
  }

  /** `sorted(s, key=lambda x: x[0])`: insertion sort, earlier entries first among equal scores. */
  function StableSort<T>(s: seq<(real, T)>): (r: seq<(real, T)>)
    ensures |r| == |s|
  {
    if s == [] then [] else Insert(s[0], StableSort(s[1..]))
  }

  /** The entries of `s` that carry score `k`, in their order in `s`. */
  function WithKey<T>(s: seq<(real, T)>, k: real): seq<(real, T)>
  {
    if s == [] then []
    else if s[0].0 == k then [s[0]] + WithKey(s[1..], k)
    else WithKey(s[1..], k)
  }

  /** The end index of the Python slice `s[:n]` on a sequence of length `len`. */
  function SliceEnd(len: nat, n: int): (e: nat)
    ensures e <= len
    ensures n >= 0 ==> e == if n < len then n else len
    ensures n < 0 ==> e == if len + n > 0 then len + n else 0
  {
    if n >= 0 then (if n < len then n else len)
    else if len + n > 0 then len + n
    else 0
  }

  /** `s[:n]` with Python's rules, negative `n` counting from the end. */
  function PyPrefix<T>(s: seq<T>, n: int): (r: seq<T>)
    ensures |r| == SliceEnd(|s|, n)
    ensures r == s[..|r|]
  {
    s[..SliceEnd(|s|, n)]
  }

  /** `[song for _, song in pairs]`. */
  function Items<T>(s: seq<(real, T)>): (r: seq<T>)
    ensures |r| == |s|
    ensures forall i :: 0 <= i < |s| ==> r[i] == s[i].1
  {
    if s == [] then [] else [s[0].1] + Items(s[1..])
  }

  /** The ranked result: sort stably, cut to `top_n`, drop the scores. */
  function Rank<T>(scored: seq<(real, T)>, topN: int): seq<T>
  {
    Items(PyPrefix(StableSort(scored), topN))
  }

  lemma {:induction false} InsertSorted<T>(x: (real, T), s: seq<(real, T)>)
    requires SortedByKey(s)
    ensures SortedByKey(Insert(x, s))
  {
    if s != [] && x.0 > s[0].0 {
      InsertSorted(x, s[1..]);
      InsertMembers(x, s[1..]);
      var r := Insert(x, s);
      forall i, j | 0 <= i < j < |r| ensures r[i].0 <= r[j].0 {
        if i == 0 {
          assert r[j] in Insert(x, s[1..]);
        }
      }
    }
  }

  lemma {:induction false} InsertMembers<T>(x: (real, T), s: seq<(real, T)>)
    ensures multiset(Insert(x, s)) == multiset(s) + multiset{x}
    ensures forall e :: e in Insert(x, s) ==> e == x || e in s
  {
    if s != [] && x.0 > s[0].0 {
      InsertMembers(x, s[1..]);
      assert s == [s[0]] + s[1..];
    }
  }

  lemma {:induction false} SortPermutes<T>(s: seq<(real, T)>)
    ensures multiset(StableSort(s)) == multiset(s)
  {
    if s != [] {
      SortPermutes(s[1..]);
      InsertMembers(s[0], StableSort(s[1..]));
      assert s == [s[0]] + s[1..];
    }
  }

  lemma {:induction false} SortSorts<T>(s: seq<(real, T)>)
    ensures SortedByKey(StableSort(s))
  {
    if s != [] {
      SortSorts(s[1..]);
      InsertSorted(s[0], StableSort(s[1..]));
    }
  }

  lemma {:induction false} WithKeyInsert<T>(x: (real, T), s: seq<(real, T)>, k: real)
    requires SortedByKey(s)
    ensures WithKey(Insert(x, s), k) == if x.0 == k then [x] + WithKey(s, k) else WithKey(s, k)
  {
    if s != [] && x.0 > s[0].0 {
      assert SortedByKey(s[1..]) by {
        forall i, j | 0 <= i < j < |s[1..]| ensures s[1..][i].0 <= s[1..][j].0 {
          assert s[1..][i] == s[i + 1] && s[1..][j] == s[j + 1];
        }
      }
      WithKeyInsert(x, s[1..], k);
      assert Insert(x, s) == [s[0]] + Insert(x, s[1..]);
    }
  }

  /** Entries with equal scores come out in the order they went in. */
  lemma {:induction false} SortIsStable<T>(s: seq<(real, T)>, k: real)
    ensures WithKey(StableSort(s), k) == WithKey(s, k)
  {
    if s != [] {
      SortIsStable(s[1..], k);
      SortSorts(s[1..]);
      WithKeyInsert(s[0], StableSort(s[1..]), k);
    }
  }

  /** The first ranked entry has the least score of all. */
  lemma SortFirstIsLeast<T>(s: seq<(real, T)>)
    requires s != []
    ensures forall e :: e in s ==> StableSort(s)[0].0 <= e.0
  {
    SortSorts(s);
    SortPermutes(s);
    var r := StableSort(s);
    forall e | e in s ensures r[0].0 <= e.0 {
      assert e in multiset(r);
      var j :| 0 <= j < |r| && r[j] == e;
    }
  }

  /** What `Rank` returns: exactly `SliceEnd` items, each the item of an
      entry of the input, in non-decreasing order of score, least first. */
  lemma RankShape<T>(scored: seq<(real, T)>, topN: int)
    ensures |Rank(scored, topN)| == SliceEnd(|scored|, topN)
    ensures forall i :: 0 <= i < |Rank(scored, topN)| ==>
      StableSort(scored)[i].1 == Rank(scored, topN)[i] && StableSort(scored)[i] in scored
    ensures forall i, j :: 0 <= i < j < |Rank(scored, topN)| ==> StableSort(scored)[i].0 <= StableSort(scored)[j].0
  {
    SortSorts(scored);
    SortPermutes(scored);
    var r := StableSort(scored);
    forall i | 0 <= i < |Rank(scored, topN)| ensures r[i] in scored {
      assert r[i] in multiset(scored);
    }
  }
}
