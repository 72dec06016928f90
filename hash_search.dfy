/** The digest pipeline and the digest search of processing_and_searching.py.
    hash_and_search.py holds the same six functions with the same bodies, so
    one model serves both files. */
module HashSearch {
  import opened Base
  import opened Vectors
  import opened Hex
  import opened Features
  import opened Distance
  import opened Ranking

  /** A song of the feature database: its name and one feature dict per dimension. */
  datatype Song = Song(songName: string, features: seq<Dict>)

  /** A song of the hashed database: its name and one digest per dimension. */
  datatype HashedSong = HashedSong(songName: string, songFeaturesHash: seq<string>)

  // ---------------------------------------------------------------------
  // Normalisation helpers.

  /** `peak_normalize`: divide by the maximum. numpy's max of an empty array
      raises; dividing by a zero maximum gives nan or inf. */
  function PeakNormalize(data: seq<real>): (r: Result<seq<real>>)
    ensures r.Success? <==> data != [] && MaxOf(data) != 0.0
    ensures r.Success? ==> |r.value| == |data|
  {
    if data == [] then Failure(EmptyReduction)
    else if MaxOf(data) == 0.0 then Failure(NonFinite)
    else Success(DivideAll(data, MaxOf(data)))
  }

  /** With a positive maximum, every value ends at most 1 and the maximum at exactly 1. */
  lemma PeakNormalizeBounds(data: seq<real>)
    requires data != [] && MaxOf(data) > 0.0
    ensures forall i :: 0 <= i < |data| ==> PeakNormalize(data).value[i] <= 1.0
    ensures exists i :: 0 <= i < |data| && PeakNormalize(data).value[i] == 1.0
  {
    var m := MaxOf(data);
    var r := PeakNormalize(data).value;
    forall i | 0 <= i < |data| ensures r[i] <= 1.0 {
      QuotientFacts(data[i], m);
    }
    var k :| 0 <= k < |data| && data[k] == m;
    QuotientFacts(m, m);
    assert r[k] == 1.0;
  }

  /** `min_max_normalize` as written: `data - min_val / (max_val - min_val)`,
      where the division binds tighter than the subtraction. */
  function MinMaxNormalize(data: seq<real>): (r: Result<seq<real>>)
    ensures r.Success? <==> data != [] && MaxOf(data) != MinOf(data)
    ensures r.Success? ==> |r.value| == |data|
  {
    if data == [] then Failure(EmptyReduction)
    else if MaxOf(data) == MinOf(data) then Failure(NonFinite)
    else Success(SubtractAll(data, MinOf(data) / (MaxOf(data) - MinOf(data))))
  }

  /** What the precedence makes of it: every element moves by the same
      constant, so the spread of the data is kept rather than mapped to [0, 1]. */
  lemma MinMaxShifts(data: seq<real>)
    requires MinMaxNormalize(data).Success?
    ensures forall i, j :: 0 <= i < |data| && 0 <= j < |data| ==>
      MinMaxNormalize(data).value[i] - MinMaxNormalize(data).value[j] == data[i] - data[j]
  {
  }

  /** For [1, 3] the result is [0.5, 2.5]: neither end is 0 and one end exceeds 1. */
  lemma MinMaxExample()
    ensures MinMaxNormalize([1.0, 3.0]) == Success([0.5, 2.5])
  {
    var d := [1.0, 3.0];
    assert MaxOf(d) == 3.0 && MinOf(d) == 1.0;
    assert SubtractAll(d, 0.5) == [0.5, 2.5];
  }

  // ---------------------------------------------------------------------
  // flatten_and_normalize and p_hash.

  /** The list `flatten_and_normalize` returns. */
  function Normalized(ext: Externals, features: Dict): Result<seq<real>>
  {
    var flat :- FlattenSorted(features);
    Success(L2Normalize(flat, ext.norm(flat)))
  }

  /** `flatten_and_normalize(features)`. The loop visits the sorted items; a
      nested list spliced into the vector makes the `np.array` call fail. */
  method FlattenAndNormalize(ext: Externals, features: Dict) returns (r: Result<seq<real>>)
    ensures r == Normalized(ext, features)
  {
    var items := SortItems(features);
    var flat: seq<real> := [];
    var nested := false;
    var i := 0;
    while i < |items|
      invariant 0 <= i <= |items|
      invariant FlattenScalarsLists(items[..i]) ==
        (if nested then Failure(MixedShapes) else Success(flat))
    {
      var value := items[i].1;
      assert flat + [] == flat;
      match value {
        case Num(x) => flat := flat + [x];
        case Floats(xs) => flat := flat + xs;
        case Nested(rows) => nested := nested || rows != [];
        case Array(_) =>
        case Other =>
      }
      FlattenScalarsListsSnoc(items[..i], items[i]);
      assert items[..i + 1] == items[..i] + [items[i]];
      i := i + 1;
    }
    assert items[..i] == items;
    if nested {
      return Failure(MixedShapes);
    }
    var n := ext.norm(flat);
    if n > 0.0 {
      flat := DivideAll(flat, n);
    }
    return Success(flat);
  }

  /** The digest of one dimension: SHA-256 of the UTF-8 text of the list, in hex. */
  function Digest(ext: Externals, features: Dict): Result<string>
  {
    var v :- Normalized(ext, features);
    Success(HexEncode(ext.sha256(ext.strEncode(v))))
  }

  /** `p_hash(features)`: the digests of the dimensions, in order, or the first error. */
  function Digests(ext: Externals, dims: seq<Dict>): Result<seq<string>>
  {
    MapResult(d => Digest(ext, d), dims)
  }

  method PHash(ext: Externals, dims: seq<Dict>) returns (r: Result<seq<string>>)
    ensures r == Digests(ext, dims)
  {
    var hashed: seq<string> := [];
    var i := 0;
    while i < |dims|
      invariant 0 <= i <= |dims|
      invariant Digests(ext, dims[..i]) == Success(hashed)
    {
      assert dims[..i + 1][..i] == dims[..i];
      var v := FlattenAndNormalize(ext, dims[i]);
      if v.Failure? {
        MapResultPrefixFails(d => Digest(ext, d), dims, i + 1);
        return Failure(v.error);
      }
      var digest := HexEncode(ext.sha256(ext.strEncode(v.value)));
      hashed := hashed + [digest];
      i := i + 1;
    }
    assert dims[..i] == dims;
    return Success(hashed);
  }

  /** `p_hash` succeeds exactly when every dimension normalises, and then
      gives one digest per dimension, in input order, each 64 lower-case hex
      characters. */
  lemma DigestsSpec(ext: Externals, dims: seq<Dict>)
    ensures Digests(ext, dims).Success? <==> forall i :: 0 <= i < |dims| ==> Normalized(ext, dims[i]).Success?
    ensures Digests(ext, dims).Success? ==>
      |Digests(ext, dims).value| == |dims| &&
      forall i :: 0 <= i < |dims| ==>
        Digests(ext, dims).value[i] == Digest(ext, dims[i]).value &&
        |Digests(ext, dims).value[i]| == 64 && IsLowerHex(Digests(ext, dims).value[i])
  {
    MapResultSpec(d => Digest(ext, d), dims);
    forall i | 0 <= i < |dims| && Normalized(ext, dims[i]).Success?
      ensures |Digest(ext, dims[i]).value| == 64 && IsLowerHex(Digest(ext, dims[i]).value)
    {
      DigestText(ext.sha256(ext.strEncode(Normalized(ext, dims[i]).value)));
    }
  }

  /** Equal normalised vectors of reals give equal digests. */
  lemma DigestDeterministic(ext: Externals, d1: Dict, d2: Dict)
    requires Normalized(ext, d1) == Normalized(ext, d2)
    ensures Digest(ext, d1) == Digest(ext, d2)
  {
  }

  /** An ndarray or other value anywhere in a dimension's dict leaves its
      digest as it is without that value. */
  lemma DigestSkipsOthers(ext: Externals, a: Dict, x: (string, FeatureValue), b: Dict)
    requires DistinctKeys(a + [x] + b) && (x.1.Array? || x.1.Other?)
    ensures Digest(ext, a + [x] + b) == Digest(ext, a + b)
  {
    ToFrontDistinct(a, x, b);
    DigestOrderFree(ext, a + [x] + b, [x] + (a + b));
    SortedFlattenSkipsOthers(x, a + b);
    DigestDeterministic(ext, [x] + (a + b), a + b);
  }

  /** The sorted flattening makes the digest independent of insertion order. */
  lemma DigestOrderFree(ext: Externals, d1: Dict, d2: Dict)
    requires DistinctKeys(d1) && DistinctKeys(d2) && multiset(d1) == multiset(d2)
    ensures Digest(ext, d1) == Digest(ext, d2)
  {
    FlattenSortedOrderFree(d1, d2);
  }

  /** When the norm is positive the list has unit norm; otherwise it is the
      flattened vector itself. */
  lemma NormalizedSpec(ext: Externals, features: Dict)
    requires ext.NormIsL2() && FlattenSorted(features).Success?
    ensures var flat := FlattenSorted(features).value;
      (!AllZero(flat) ==> SumSq(Normalized(ext, features).value) == 1.0) &&
      (AllZero(flat) ==> Normalized(ext, features).value == flat)
  {
    var flat := FlattenSorted(features).value;
    var n := ext.norm(flat);
    assert IsL2Norm(flat, n);
    NormPositiveIff(flat, n);
    if n > 0.0 {
      NormalizedIsUnit(flat, n);
    }
  }

  // ---------------------------------------------------------------------
  // perceptual_hash and generate_hashed_database.

  /** The hex digest `perceptual_hash` returns: the ndarray values in
      insertion order, normalised when their norm is positive, hashed as raw bytes. */
  function PerceptualDigest(ext: Externals, features: Dict): string
  {
    var flat := FlattenArrays(features);
    HexEncode(ext.sha256(ext.toBytes(L2Normalize(flat, ext.norm(flat)))))
  }

  method PerceptualHash(ext: Externals, features: Dict) returns (h: string)
    ensures h == PerceptualDigest(ext, features)
    ensures |h| == 64 && IsLowerHex(h)
  {
    var flat: seq<real> := [];
    var i := 0;
    while i < |features|
      invariant 0 <= i <= |features|
      invariant flat == FlattenArrays(features[..i])
    {
      if features[i].1.Array? {
        flat := flat + features[i].1.xs;
      }
      FlattenArraysSnoc(features[..i], features[i]);
      assert features[..i + 1] == features[..i] + [features[i]];
      i := i + 1;
    }
    assert features[..i] == features;
    var n := ext.norm(flat);
    if n > 0.0 {
      flat := DivideAll(flat, n);
    }
    h := HexEncode(ext.sha256(ext.toBytes(flat)));
    DigestText(ext.sha256(ext.toBytes(flat)));
  }

  /** Only ndarray values matter: dicts whose arrays agree in insertion order
      get the same digest whatever else they hold. */
  lemma PerceptualDigestArraysOnly(ext: Externals, d1: Dict, d2: Dict)
    requires FlattenArrays(d1) == FlattenArrays(d2)
    ensures PerceptualDigest(ext, d1) == PerceptualDigest(ext, d2)
  {
  }

  /** A value that is not an ndarray, anywhere in the dict, leaves the
      digest of `perceptual_hash` as it is without that value. */
  lemma PerceptualDigestSkipsOthers(ext: Externals, a: Dict, x: (string, FeatureValue), b: Dict)
    requires !x.1.Array?
    ensures PerceptualDigest(ext, a + [x] + b) == PerceptualDigest(ext, a + b)
  {
    SkippedValueArrays(a, x, b);
    PerceptualDigestArraysOnly(ext, a + [x] + b, a + b);
  }

  /** `[perceptual_hash(feature) for feature in features]`. */
  function PerceptualDigests(ext: Externals, dims: seq<Dict>): (r: seq<string>)
    ensures |r| == |dims|
    ensures forall i :: 0 <= i < |dims| ==> r[i] == PerceptualDigest(ext, dims[i])
  {
    if dims == [] then [] else [PerceptualDigest(ext, dims[0])] + PerceptualDigests(ext, dims[1..])
  }

  /** `generate_hashed_database(database)`: one record per song, in order,
      holding its name and one digest per feature dict. */
  method GenerateHashedDatabase(ext: Externals, database: seq<Song>) returns (hashed: seq<HashedSong>)
    ensures |hashed| == |database|
    ensures forall i :: 0 <= i < |database| ==>
      hashed[i].songName == database[i].songName &&
      hashed[i].songFeaturesHash == PerceptualDigests(ext, database[i].features)
  {
    hashed := [];
    var i := 0;
    while i < |database|
      invariant 0 <= i <= |database|
      invariant |hashed| == i
      invariant forall k :: 0 <= k < i ==>
        hashed[k] == HashedSong(database[k].songName, PerceptualDigests(ext, database[k].features))
    {
      var song := database[i];
      var songHash := PerceptualDigests(ext, song.features);
      hashed := hashed + [HashedSong(song.songName, songHash)];
      i := i + 1;
    }
  }

  // ---------------------------------------------------------------------
  // calculate_hash_distance.

  const MetricCodes: set<string> := {"cos", "e", "c", "j", "h"}

  /** `calculate_hash_distance(hash1, hash2, distance_metric)`: decode both
      digests (first `hash1`, then `hash2`), then dispatch on the code. */
  function HashDistance(sp: Metrics, hash1: string, hash2: string, metric: string): Result<real>
  {
    var a :- FromHex(hash1);
    var b :- FromHex(hash2);
    if metric == "cos" then sp.cosine(ToReals(a), ToReals(b))
    else if metric == "e" then sp.euclidean(ToReals(a), ToReals(b))
    else if metric == "c" then sp.cityblock(ToReals(a), ToReals(b))
    else if metric == "j" then sp.jensenshannon(ToReals(a), ToReals(b))
    else if metric == "h" then Hamming(a, b)
    else Failure(UnsupportedMetric)
  }

  /** A code outside the five raises, whatever the digests; with two
      well-formed digests the error is the unsupported code. */
  lemma UnknownMetricFails(sp: Metrics, hash1: string, hash2: string, metric: string)
    requires metric !in MetricCodes
    ensures HashDistance(sp, hash1, hash2, metric).Failure?
    ensures FromHex(hash1).Success? && FromHex(hash2).Success? ==>
      HashDistance(sp, hash1, hash2, metric) == Failure(UnsupportedMetric)
  {
  }

  /** With code 'h', two digests written by `hexdigest()` are 32 bytes each
      and their distance is the fraction of differing bytes: in [0, 1], zero
      exactly for equal digests, the same in both argument orders. */
  lemma HammingOfDigests(sp: Metrics, h1: Hash32, h2: Hash32)
    ensures var r := HashDistance(sp, HexEncode(h1), HexEncode(h2), "h");
      r == Hamming(h1, h2) && r.Success? &&
      0.0 <= r.value <= 1.0 &&
      (r.value == 0.0 <==> h1 == h2) &&
      r == HashDistance(sp, HexEncode(h2), HexEncode(h1), "h")
  {
    HexRoundTrip(h1);
    HexRoundTrip(h2);
    HammingSpec(h1, h2);
  }

  // ---------------------------------------------------------------------
  // search_hashed_database.

  /** `min(calculate_hash_distance(query_hash, h, metric) for h in hashes)`:
      the generator is consumed in order and the first error propagates. */
  function SongDistance(sp: Metrics, queryHash: string, hashes: seq<string>, metric: string): Result<real>
  {
    if hashes == [] then Failure(EmptyIterable)
    else
      var d :- HashDistance(sp, queryHash, hashes[0], metric);
      if |hashes| == 1 then Success(d)
      else
        var m :- SongDistance(sp, queryHash, hashes[1..], metric);
        Success(if m < d then m else d)
  }

  /** The song distance is the least of the digest distances. */
  lemma {:induction false} SongDistanceIsMin(sp: Metrics, queryHash: string, hashes: seq<string>, metric: string)
    requires SongDistance(sp, queryHash, hashes, metric).Success?
    ensures forall i :: 0 <= i < |hashes| ==>
      HashDistance(sp, queryHash, hashes[i], metric).Success? &&
      SongDistance(sp, queryHash, hashes, metric).value <= HashDistance(sp, queryHash, hashes[i], metric).value
    ensures exists i ::
      0 <= i < |hashes| &&
      SongDistance(sp, queryHash, hashes, metric).value == HashDistance(sp, queryHash, hashes[i], metric).value
  {
    if |hashes| > 1 {
      SongDistanceIsMin(sp, queryHash, hashes[1..], metric);
      var k :| 0 <= k < |hashes[1..]| &&
        SongDistance(sp, queryHash, hashes[1..], metric).value == HashDistance(sp, queryHash, hashes[1..][k], metric).value;
      assert hashes[1..][k] == hashes[k + 1];
      assert forall i :: 1 <= i < |hashes| ==> hashes[i] == hashes[1..][i - 1];
    }
  }

  /** One `(distance, song)` pair of the search loop. */
  function Score(sp: Metrics, queryHash: string, song: HashedSong, metric: string): Result<(real, HashedSong)>
  {
    var d :- SongDistance(sp, queryHash, song.songFeaturesHash, metric);
    Success((d, song))
  }

  /** The pairs of the search loop, or its first error. */
  function ScoreAll(sp: Metrics, queryHash: string, db: seq<HashedSong>, metric: string): Result<seq<(real, HashedSong)>>
  {
    MapResult(song => Score(sp, queryHash, song, metric), db)
  }

  /** What `search_hashed_database` returns. */
  function Search(ext: Externals, sp: Metrics, query: Dict, db: seq<HashedSong>, metric: string, topN: int): Result<seq<HashedSong>>
  {
    var scored :- ScoreAll(sp, PerceptualDigest(ext, query), db, metric);
    Success(Rank(scored, topN))
  }

  method SearchHashedDatabase(ext: Externals, sp: Metrics, query: Dict, db: seq<HashedSong>, metric: string, topN: int)
    returns (r: Result<seq<HashedSong>>)
    ensures r == Search(ext, sp, query, db, metric, topN)
  {
    var queryHash := PerceptualHash(ext, query);
    var distances: seq<(real, HashedSong)> := [];
    var i := 0;
    while i < |db|
      invariant 0 <= i <= |db|
      invariant ScoreAll(sp, queryHash, db[..i], metric) == Success(distances)
    {
      assert db[..i + 1][..i] == db[..i];
      var d := SongDistance(sp, queryHash, db[i].songFeaturesHash, metric);
      if d.Failure? {
        MapResultPrefixFails(song => Score(sp, queryHash, song, metric), db, i + 1);
        return Failure(d.error);
      }
      distances := distances + [(d.value, db[i])];
      i := i + 1;
    }
    assert db[..i] == db;
    distances := StableSort(distances);
    return Success(Items(PyPrefix(distances, topN)));
  }

  /** The scored pairs are the songs of the database, in order, each with its distance. */
  lemma ScoreAllSpec(sp: Metrics, queryHash: string, db: seq<HashedSong>, metric: string)
    ensures ScoreAll(sp, queryHash, db, metric).Success? <==>
      forall i :: 0 <= i < |db| ==> SongDistance(sp, queryHash, db[i].songFeaturesHash, metric).Success?
    ensures ScoreAll(sp, queryHash, db, metric).Success? ==>
      var s := ScoreAll(sp, queryHash, db, metric).value;
      |s| == |db| && forall i :: 0 <= i < |db| ==>
        s[i] == (SongDistance(sp, queryHash, db[i].songFeaturesHash, metric).value, db[i])
  {
    MapResultSpec(song => Score(sp, queryHash, song, metric), db);
  }

  /** An empty database gives an empty result. */
  lemma SearchEmpty(ext: Externals, sp: Metrics, query: Dict, metric: string, topN: int)
    ensures Search(ext, sp, query, [], metric, topN) == Success([])
  {
  }

  /** A song with no stored digests makes the search raise. */
  lemma SearchEmptyDigestsFail(ext: Externals, sp: Metrics, query: Dict, db: seq<HashedSong>, metric: string, topN: int, k: nat)
    requires k < |db| && db[k].songFeaturesHash == []
    ensures Search(ext, sp, query, db, metric, topN).Failure?
  {
    ScoreAllSpec(sp, PerceptualDigest(ext, query), db, metric);
  }

  /** The search's own default code 'cosine' is not one of the five, so the
      search raises on every non-empty database. */
  lemma SearchDefaultMetricFails(ext: Externals, sp: Metrics, query: Dict, db: seq<HashedSong>, topN: int)
    requires db != []
    ensures Search(ext, sp, query, db, "cosine", topN).Failure?
  {
    var q := PerceptualDigest(ext, query);
    ScoreAllSpec(sp, q, db, "cosine");
    var hs := db[0].songFeaturesHash;
    if hs != [] {
      UnknownMetricFails(sp, q, hs[0], "cosine");
    }
  }

  /** A successful search returns `top_n` songs (Python slice rules), each an
      unchanged database record, in non-decreasing order of distance, the
      first of them at the least distance in the database; songs at equal
      distance keep their database order. */
  lemma SearchRanked(ext: Externals, sp: Metrics, query: Dict, db: seq<HashedSong>, metric: string, topN: int)
    requires Search(ext, sp, query, db, metric, topN).Success?
    ensures var q := PerceptualDigest(ext, query);
      var scored := ScoreAll(sp, q, db, metric).value;
      var r := Search(ext, sp, query, db, metric, topN).value;
      |r| == SliceEnd(|db|, topN) &&
      (forall i :: 0 <= i < |r| ==>
        r[i] in db && r[i] == StableSort(scored)[i].1 &&
        SongDistance(sp, q, r[i].songFeaturesHash, metric).Success? &&
        StableSort(scored)[i].0 == SongDistance(sp, q, r[i].songFeaturesHash, metric).value) &&
      (forall i, j :: 0 <= i < j < |r| ==> StableSort(scored)[i].0 <= StableSort(scored)[j].0) &&
      (|r| > 0 ==> forall k :: 0 <= k < |db| ==>
        SongDistance(sp, q, db[k].songFeaturesHash, metric).Success? &&
        StableSort(scored)[0].0 <= SongDistance(sp, q, db[k].songFeaturesHash, metric).value) &&
      (forall d :: WithKey(StableSort(scored), d) == WithKey(scored, d))
  {
    var q := PerceptualDigest(ext, query);
    ScoreAllSpec(sp, q, db, metric);
    var scored := ScoreAll(sp, q, db, metric).value;
    var r := Search(ext, sp, query, db, metric, topN).value;
    RankShape(scored, topN);
    forall i | 0 <= i < |r|
      ensures r[i] in db && StableSort(scored)[i].0 == SongDistance(sp, q, r[i].songFeaturesHash, metric).value
    {
      var j :| 0 <= j < |scored| && scored[j] == StableSort(scored)[i];
    }
    if |r| > 0 {
      SortFirstIsLeast(scored);
      forall k | 0 <= k < |db|
        ensures StableSort(scored)[0].0 <= SongDistance(sp, q, db[k].songFeaturesHash, metric).value
      {
        assert scored[k] in scored;
      }
    }
    forall d ensures WithKey(StableSort(scored), d) == WithKey(scored, d) {
      SortIsStable(scored, d);
    }
  }
}
