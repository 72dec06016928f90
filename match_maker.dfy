/** `Match_Maker` of matchmaker.py: a query spectrogram held in the object,
    a distance on digests that normalises both byte arrays first and accepts
    the four long metric names, and the digest search. */
module MatchMaker {
  import opened Base
  import opened Vectors
  import opened Hex
  import opened Features
  import opened Distance
  import opened Ranking
  import opened AudioFingerprint
  import HashDraft

  /** A record of the database DB_Generator.py writes: the song name and
      the digests stored under "song_features", "vocals_features" and
      "music_features". */
  datatype DbSong = DbSong(songName: string, songFeatures: string, vocalsFeatures: string, musicFeatures: string)

  /** `array / np.linalg.norm(array)`: a non-empty array with norm 0 turns
      into nan; an empty one stays empty. */
  function DivideByNorm(ext: Externals, v: seq<real>): (r: Result<seq<real>>)
    ensures r.Success? <==> v == [] || ext.norm(v) != 0.0
    ensures r.Success? ==> |r.value| == |v|
  {
    if v == [] then Success([])
    else if ext.norm(v) == 0.0 then Failure(NonFinite)
    else Success(DivideAll(v, ext.norm(v)))
  }

  /** `__calculate_hash_distance`: decode both digests, divide each by its own
      norm, and only then look at the metric name. */
  function PrivateHashDistance(ext: Externals, sp: Metrics, hash1: string, hash2: string, metric: string): Result<real>
  {
    var a :- FromHex(hash1);
    var b :- FromHex(hash2);
    var u :- DivideByNorm(ext, ToReals(a));
    var v :- DivideByNorm(ext, ToReals(b));
    if metric == "cosine" then sp.cosine(u, v)
    else if metric == "euclidean" then sp.euclidean(u, v)
    else if metric == "cityblock" then sp.cityblock(u, v)
    else if metric == "jensenshannon" then sp.jensenshannon(u, v)
    else Failure(UnsupportedMetric)
  }

  const MetricNames: set<string> := {"cosine", "euclidean", "cityblock", "jensenshannon"}

  /** Only the four long names are accepted: "hamming" and the short codes of
      the module-level distance raise once both digests have been read. */
  lemma UnknownNameFails(ext: Externals, sp: Metrics, hash1: string, hash2: string, metric: string)
    requires metric !in MetricNames
    ensures PrivateHashDistance(ext, sp, hash1, hash2, metric).Failure?
  {
  }

  /** Each of the four metrics is applied to the two normalised arrays, the
      one its name stands for; with a true L2 norm each array is a unit vector. */
  lemma NormalisedBeforeMetric(ext: Externals, sp: Metrics, h1: Hash32, h2: Hash32)
    requires ext.NormIsL2() && !AllZero(ToReals(h1)) && !AllZero(ToReals(h2))
    ensures var u := DivideByNorm(ext, ToReals(h1));
      var v := DivideByNorm(ext, ToReals(h2));
      u.Success? && v.Success? && SumSq(u.value) == 1.0 && SumSq(v.value) == 1.0 &&
      PrivateHashDistance(ext, sp, HexEncode(h1), HexEncode(h2), "cosine") == sp.cosine(u.value, v.value) &&
      PrivateHashDistance(ext, sp, HexEncode(h1), HexEncode(h2), "euclidean") == sp.euclidean(u.value, v.value) &&
      PrivateHashDistance(ext, sp, HexEncode(h1), HexEncode(h2), "cityblock") == sp.cityblock(u.value, v.value) &&
      PrivateHashDistance(ext, sp, HexEncode(h1), HexEncode(h2), "jensenshannon") == sp.jensenshannon(u.value, v.value)
  {
    HexRoundTrip(h1);
    HexRoundTrip(h2);
    var a, b := ToReals(h1), ToReals(h2);
    assert IsL2Norm(a, ext.norm(a)) && IsL2Norm(b, ext.norm(b));
    NormPositiveIff(a, ext.norm(a));
    NormPositiveIff(b, ext.norm(b));
    NormalizedIsUnit(a, ext.norm(a));
    NormalizedIsUnit(b, ext.norm(b));
  }

  /** A digest of 32 zero bytes has norm 0, so the division yields nan and no distance. */
  lemma ZeroDigestFails(ext: Externals, sp: Metrics, h1: Hash32, hash2: string, metric: string)
    requires ext.NormIsL2() && AllZero(ToReals(h1))
    ensures PrivateHashDistance(ext, sp, HexEncode(h1), hash2, metric).Failure?
  {
    HexRoundTrip(h1);
    var a := ToReals(h1);
    assert IsL2Norm(a, ext.norm(a));
    NormPositiveIff(a, ext.norm(a));
  }

  /** `__extract_hashed_input_features` as written: line 23 builds a
      `Song_FingerPrint` from three arguments where its constructor takes
      four, so the call raises TypeError before anything is hashed (and the
      `get_features` of line 24 is not a method of that class either). */
  function ExtractHashedInputFeatures(sg: Matrix): Result<string>
  {
    Failure(MissingArgument)
  }

  /** The query digest with a working extractor: DB_Generator's
      `perceptual_hash` of the features the fingerprint yields, given here as
      `features`. */
  function InputHash(ext: Externals, features: Matrix -> Dict, sg: Matrix): Result<string>
  {
    HashDraft.DraftDigest(ext, features(sg))
  }

  /** With a working extractor the query digest exists exactly when the
      draft flattening succeeds and is not empty, and it is then 64
      lower-case hex characters. */
  lemma InputHashSpec(ext: Externals, features: Matrix -> Dict, sg: Matrix)
    requires ext.NormIsL2()
    ensures InputHash(ext, features, sg).Success? <==>
      FlattenListOrAppend(features(sg)).Success? && FlattenListOrAppend(features(sg)).value != []
    ensures InputHash(ext, features, sg).Success? ==>
      |InputHash(ext, features, sg).value| == 64 && IsLowerHex(InputHash(ext, features, sg).value)
  {
    HashDraft.DraftVectorSpec(ext, features(sg));
    if InputHash(ext, features, sg).Success? {
      DigestText(ext.sha256(ext.toBytes(HashDraft.DraftVector(ext, features(sg)).value)));
    }
  }

  /** The loop of `search_hashed_database` as written once it has a query
      digest: line 61 calls `self.calculate_hash_distance`, which does not
      exist (the method is name-mangled private), so the first song raises
      AttributeError and only an empty database gets through. */
  function SearchLoopAsWritten(db: seq<DbSong>): Result<seq<DbSong>>
  {
    if db == [] then Success([]) else Failure(MissingAttribute)
  }

  /** `search_hashed_database` as written, for a given query extractor. */
  function SearchWith(extract: Matrix -> Result<string>, sg: Matrix, db: seq<DbSong>): Result<seq<DbSong>>
  {
    var q :- extract(sg);
    SearchLoopAsWritten(db)
  }

  /** As written the search never returns: the extractor raises TypeError
      for every spectrogram and every database, the empty one included. */
  lemma SearchAsWrittenFails(sg: Matrix, db: seq<DbSong>)
    ensures SearchWith(ExtractHashedInputFeatures, sg, db) == Failure(MissingArgument)
  {
  }

  /** With a working extractor, the distance call of line 61 still makes
      the search raise on any song in the database. */
  lemma DistanceCallFails(ext: Externals, features: Matrix -> Dict, sg: Matrix, db: seq<DbSong>)
    requires db != []
    ensures SearchWith((m: Matrix) => InputHash(ext, features, m), sg, db).Failure?
    ensures InputHash(ext, features, sg).Success? ==>
      SearchWith((m: Matrix) => InputHash(ext, features, m), sg, db) == Failure(MissingAttribute)
  {
  }

  /** One `(distance, song)` pair of the intended loop. */
  function PairOf(ext: Externals, sp: Metrics, q: string, song: DbSong, metric: string): Result<(real, DbSong)>
  {
    var d :- PrivateHashDistance(ext, sp, q, song.songFeatures, metric);
    Success((d, song))
  }

  /** The search with line 61 calling the private method: distance to each
      song's "song_features" digest, stable sort, slice to `top_n`. */
  function SearchIntended(ext: Externals, sp: Metrics, features: Matrix -> Dict, sg: Matrix, db: seq<DbSong>, metric: string, topN: int): Result<seq<DbSong>>
  {
    var q :- InputHash(ext, features, sg);
    var scored :- MapResult(song => PairOf(ext, sp, q, song, metric), db);
    Success(Rank(scored, topN))
  }

  /** The intended search returns `top_n` records (Python slice rules), each
      an unchanged database record, in non-decreasing order of distance, the
      first at the least distance; equal distances keep database order. */
  lemma SearchIntendedRanked(ext: Externals, sp: Metrics, features: Matrix -> Dict, sg: Matrix, db: seq<DbSong>, metric: string, topN: int)
    requires SearchIntended(ext, sp, features, sg, db, metric, topN).Success?
    ensures var q := InputHash(ext, features, sg).value;
      var scored := MapResult(song => PairOf(ext, sp, q, song, metric), db).value;
      var r := SearchIntended(ext, sp, features, sg, db, metric, topN).value;
      |r| == SliceEnd(|db|, topN) &&
      (forall i :: 0 <= i < |r| ==>
        r[i] in db && r[i] == StableSort(scored)[i].1 &&
        PrivateHashDistance(ext, sp, q, r[i].songFeatures, metric).Success? &&
        StableSort(scored)[i].0 == PrivateHashDistance(ext, sp, q, r[i].songFeatures, metric).value) &&
      (forall i, j :: 0 <= i < j < |r| ==> StableSort(scored)[i].0 <= StableSort(scored)[j].0) &&
      (|r| > 0 ==> forall k :: 0 <= k < |db| ==>
        PrivateHashDistance(ext, sp, q, db[k].songFeatures, metric).Success? &&
        StableSort(scored)[0].0 <= PrivateHashDistance(ext, sp, q, db[k].songFeatures, metric).value) &&
      (forall d :: WithKey(StableSort(scored), d) == WithKey(scored, d))
  {
    var q := InputHash(ext, features, sg).value;
    var f := song => PairOf(ext, sp, q, song, metric);
    MapResultSpec(f, db);
    var scored := MapResult(f, db).value;
    RankShape(scored, topN);
    var r := SearchIntended(ext, sp, features, sg, db, metric, topN).value;
    forall i | 0 <= i < |r|
      ensures r[i] in db && PrivateHashDistance(ext, sp, q, r[i].songFeatures, metric).Success? &&
        StableSort(scored)[i].0 == PrivateHashDistance(ext, sp, q, r[i].songFeatures, metric).value
    {
      var j :| 0 <= j < |scored| && scored[j] == StableSort(scored)[i];
    }
    if |r| > 0 {
      SortFirstIsLeast(scored);
      forall k | 0 <= k < |db|
        ensures PrivateHashDistance(ext, sp, q, db[k].songFeatures, metric).Success? &&
          StableSort(scored)[0].0 <= PrivateHashDistance(ext, sp, q, db[k].songFeatures, metric).value
      {
        assert scored[k] in scored;
      }
    }
    forall d ensures WithKey(StableSort(scored), d) == WithKey(scored, d) {
      SortIsStable(scored, d);
    }
  }

  /** The matcher: the database it was built with and the spectrogram of the
      current query. */
  class Matcher {
    var db: seq<DbSong>
    var sg: Matrix

    /** `__init__` stores DB_Generator's `songs_DB`, passed in here, and the spectrogram. */
    constructor (songsDb: seq<DbSong>, spectrogram: Matrix)
      ensures db == songsDb && sg == spectrogram
    {
      db := songsDb;
      sg := spectrogram;
    }

    /** Replaces the query spectrogram and nothing else. */
    method UpdateSpectrogram(newSpectrogram: Matrix)
      modifies this
      ensures sg == newSpectrogram && db == old(db)
    {
      sg := newSpectrogram;
    }

    /** `search_hashed_database` as written, with the query extractor as a
        parameter: the source's own is `ExtractHashedInputFeatures`. */
    method SearchHashedDatabase(extract: Matrix -> Result<string>, hashedDatabase: seq<DbSong>, metric: string, topN: int)
      returns (r: Result<seq<DbSong>>)
      ensures r == SearchWith(extract, sg, hashedDatabase)
    {
      var inputHash := extract(sg);
      if inputHash.Failure? {
        return Failure(inputHash.error);
      }
      var songDistances: seq<(real, DbSong)> := [];
      for i := 0 to |hashedDatabase|
        invariant songDistances == []
      {
        var dbHash := hashedDatabase[i].songFeatures;
        // `self.calculate_hash_distance` is not an attribute of the object.
        return Failure(MissingAttribute);
      }
      return Success(Rank(songDistances, topN));
    }

    /** The search with the private distance method. */
    method SearchIntendedHashedDatabase(ext: Externals, sp: Metrics, features: Matrix -> Dict, hashedDatabase: seq<DbSong>, metric: string, topN: int)
      returns (r: Result<seq<DbSong>>)
      ensures r == SearchIntended(ext, sp, features, sg, hashedDatabase, metric, topN)
    {
      var inputHash := HashDraft.PerceptualHash(ext, features(sg));
      if inputHash.Failure? {
        return Failure(inputHash.error);
      }
      var q := inputHash.value;
      ghost var f := song => PairOf(ext, sp, q, song, metric);
      var songDistances: seq<(real, DbSong)> := [];
      var i := 0;
      while i < |hashedDatabase|
        invariant 0 <= i <= |hashedDatabase|
        invariant MapResult(f, hashedDatabase[..i]) == Success(songDistances)
      {
        assert hashedDatabase[..i + 1][..i] == hashedDatabase[..i];
        var dbHash := hashedDatabase[i].songFeatures;
        var distance := PrivateHashDistance(ext, sp, q, dbHash, metric);
        if distance.Failure? {
          MapResultPrefixFails(f, hashedDatabase, i + 1);
          return Failure(distance.error);
        }
        songDistances := songDistances + [(distance.value, hashedDatabase[i])];
        i := i + 1;
      }
      assert hashedDatabase[..i] == hashedDatabase;
      songDistances := StableSort(songDistances);
      return Success(Items(PyPrefix(songDistances, topN)));
    }
  }
}
