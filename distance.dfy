/** The distances between two decoded digests: scipy's `hamming`, stated
    exactly, and the other scipy metrics, which the model takes as given. */
module Distance {
  import opened Base
  import opened Vectors

  /** scipy's `cosine`, `euclidean`, `cityblock` and `jensenshannon`: each
      either returns a distance or raises. */
  datatype Metrics = Metrics(
    cosine: (seq<real>, seq<real>) -> Result<real>,
    euclidean: (seq<real>, seq<real>) -> Result<real>,
    cityblock: (seq<real>, seq<real>) -> Result<real>,
    jensenshannon: (seq<real>, seq<real>) -> Result<real>)

  /** A uint8 array read as numbers. */
  function ToReals(b: seq<uint8>): (r: seq<real>)
    ensures |r| == |b|
    ensures forall i :: 0 <= i < |b| ==> r[i] == b[i] as real
  {
    if b == [] then [] else [b[0] as real] + ToReals(b[1..])
  }

  /** The number of positions where `u` and `v` differ. */
  function CountDiff(u: seq<uint8>, v: seq<uint8>): nat
    requires |u| == |v|
  {
    if u == [] then 0 else (if u[0] != v[0] then 1 else 0) + CountDiff(u[1..], v[1..])
  }

  /** scipy `hamming(u, v)`: the mean of `u != v`. Arrays of different
      lengths raise; the mean over no positions is nan. */
  function Hamming(u: seq<uint8>, v: seq<uint8>): (r: Result<real>)
    ensures r.Success? <==> |u| == |v| && |u| > 0
    ensures r.Failure? ==> r.error == (if |u| != |v| then LengthMismatch else NonFinite)
  {
    if |u| != |v| then Failure(LengthMismatch)
    else if |u| == 0 then Failure(NonFinite)
    else Success(CountDiff(u, v) as real / |u| as real)
  }

  lemma {:induction false} CountDiffBounds(u: seq<uint8>, v: seq<uint8>)
    requires |u| == |v|
    ensures CountDiff(u, v) <= |u|
    ensures CountDiff(u, v) == 0 <==> u == v
    ensures CountDiff(u, v) == |u| <==> forall i :: 0 <= i < |u| ==> u[i] != v[i]
    ensures CountDiff(u, v) == CountDiff(v, u)
  {
    if u != [] {
      CountDiffBounds(u[1..], v[1..]);
      assert u == [u[0]] + u[1..] && v == [v[0]] + v[1..];
      assert forall i :: 1 <= i < |u| ==> u[i] == u[1..][i - 1] && v[i] == v[1..][i - 1];
    }
  }

  /** The Hamming distance lies in [0, 1], is 0 exactly for equal digests,
      1 exactly when every byte differs, and does not depend on argument order. */
  lemma HammingSpec(u: seq<uint8>, v: seq<uint8>)
    requires |u| == |v| && |u| > 0
    ensures 0.0 <= Hamming(u, v).value <= 1.0
    ensures Hamming(u, v).value == 0.0 <==> u == v
    ensures Hamming(u, v).value == 1.0 <==> forall i :: 0 <= i < |u| ==> u[i] != v[i]
    ensures Hamming(u, v) == Hamming(v, u)
  {
    CountDiffBounds(u, v);
    QuotientFacts(CountDiff(u, v) as real, |u| as real);
  }
}
