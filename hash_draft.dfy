/** The earlier digest of hash_draft.py and DB_Generator.py, whose two
    `perceptual_hash` functions have the same body: values in insertion
    order, lists spliced and anything else appended, normalisation gated on
    the maximum element, SHA-256 of the raw array bytes. */
module HashDraft {
  import opened Base
  import opened Vectors
  import opened Hex
  import opened Features

  /** The vector that gets hashed, or the error that stops `perceptual_hash`. */
  function DraftVector(ext: Externals, features: Dict): Result<seq<real>>
  {
    var flat :- FlattenListOrAppend(features);
    if flat == [] then Failure(EmptyReduction)
    else if MaxOf(flat) > 0.0 then
      var n := ext.norm(flat);
      if n == 0.0 then Failure(NonFinite) else Success(DivideAll(flat, n))
    else Success(flat)
  }

  /** The digest `perceptual_hash` returns. */
  function DraftDigest(ext: Externals, features: Dict): Result<string>
  {
    var v :- DraftVector(ext, features);
    Success(HexEncode(ext.sha256(ext.toBytes(v))))
  }

  method PerceptualHash(ext: Externals, features: Dict) returns (r: Result<string>)
    ensures r == DraftDigest(ext, features)
    ensures r.Success? ==> |r.value| == 64 && IsLowerHex(r.value)
  {
    var flat: seq<real> := [];
    var mixed := false;
    var i := 0;
    while i < |features|
      invariant 0 <= i <= |features|
      invariant FlattenListOrAppend(features[..i]) ==
        (if mixed then Failure(MixedShapes) else Success(flat))
    {
      var value := features[i].1;
      assert flat + [] == flat;
      match value {
        case Floats(xs) => flat := flat + xs;
        case Nested(rows) => mixed := mixed || rows != [];
        case Num(x) => flat := flat + [x];
        case Array(_) => mixed := true;
        case Other => mixed := true;
      }
      FlattenListOrAppendSnoc(features[..i], features[i]);
      assert features[..i + 1] == features[..i] + [features[i]];
      i := i + 1;
    }
    assert features[..i] == features;
    if mixed {
      return Failure(MixedShapes);
    }
    if flat == [] {
      return Failure(EmptyReduction);
    }
    if MaxOf(flat) > 0.0 {
      var n := ext.norm(flat);
      if n == 0.0 {
        return Failure(NonFinite);
      }
      flat := DivideAll(flat, n);
    }
    var h := ext.sha256(ext.toBytes(flat));
    DigestText(h);
    return Success(HexEncode(h));
  }

  /** With a true L2 norm the digest exists exactly when the flattening
      succeeds and is not empty; when the maximum is positive the hashed
      vector has unit norm, and otherwise it is hashed as it is. */
  lemma DraftVectorSpec(ext: Externals, features: Dict)
    requires ext.NormIsL2()
    ensures DraftVector(ext, features).Success? <==>
      FlattenListOrAppend(features).Success? && FlattenListOrAppend(features).value != []
    ensures DraftVector(ext, features).Success? ==>
      var flat := FlattenListOrAppend(features).value;
      var v := DraftVector(ext, features).value;
      |v| == |flat| &&
      (MaxOf(flat) > 0.0 ==> SumSq(v) == 1.0) &&
      (MaxOf(flat) <= 0.0 ==> v == flat)
  {
    var f := FlattenListOrAppend(features);
    if f.Success? && f.value != [] && MaxOf(f.value) > 0.0 {
      var n := ext.norm(f.value);
      assert IsL2Norm(f.value, n);
      MaxPositiveNormPositive(f.value, n);
      NormalizedIsUnit(f.value, n);
    }
  }

  /** An empty feature dict, or one whose lists are all empty, raises at `.max()`. */
  lemma EmptyFeaturesFail(ext: Externals, features: Dict)
    requires forall i :: 0 <= i < |features| ==> features[i].1 == Floats([])
    ensures DraftDigest(ext, features) == Failure(EmptyReduction)
  {
    FlattenEmptyLists(features);
  }

  lemma {:induction false} FlattenEmptyLists(features: Dict)
    requires forall i :: 0 <= i < |features| ==> features[i].1 == Floats([])
    ensures FlattenListOrAppend(features) == Success([])
  {
    if features != [] {
      FlattenEmptyLists(features[1..]);
      var e: seq<real> := [];
      assert e + e == e;
    }
  }

  /** The gate is on the maximum, not on the norm: [-2] is hashed as it is,
      with squared norm 4, where the norm-gated `flatten_and_normalize`
      rule makes it a unit vector. */
  lemma GateOnMaximum(ext: Externals)
    requires ext.NormIsL2()
    ensures var d := [("a", Num(-2.0))];
      DraftVector(ext, d) == Success([-2.0]) && SumSq([-2.0]) == 4.0 &&
      SumSq(L2Normalize([-2.0], ext.norm([-2.0]))) == 1.0
  {
    var d := [("a", Num(-2.0))];
    var f: seq<real> := [-2.0];
    assert d[1..] == [];
    assert f + [] == f;
    assert FlattenListOrAppend(d) == Success(f);
    assert MaxOf(f) == -2.0;
    assert SumSq(f) == Sq(-2.0) + SumSq([]);
    assert Sq(-2.0) == 4.0;
    var n := ext.norm(f);
    assert IsL2Norm(f, n);
    assert !AllZero(f);
    NormPositiveIff(f, n);
    NormalizedIsUnit(f, n);
  }

  // ---------------------------------------------------------------------
  // create_hashed_database_json.

  /** The three digests a record gains. */
  datatype Hashes = Hashes(songFeaturesHash: string, vocalFeaturesHash: string, musicFeaturesHash: string)

  /** A song record of the input JSON: its three feature dicts, its other
      fields, and the digests once they have been written into it. */
  datatype SongRecord = SongRecord(
    songFeatures: Dict, vocalFeatures: Dict, musicFeatures: Dict,
    otherFields: Dict, hashes: Option<Hashes>)

  /** The record after the three assignments of the loop body, or the first error. */
  function HashRecord(ext: Externals, song: SongRecord): Result<SongRecord>
  {
    var s :- DraftDigest(ext, song.songFeatures);
    var v :- DraftDigest(ext, song.vocalFeatures);
    var m :- DraftDigest(ext, song.musicFeatures);
    Success(song.(hashes := Some(Hashes(s, v, m))))
  }

  /** The list written to the output file, or the error that stops the loop. */
  function HashedDatabase(ext: Externals, songs: seq<SongRecord>): Result<seq<SongRecord>>
  {
    MapResult(song => HashRecord(ext, song), songs)
  }

  /** The loop of `create_hashed_database_json` over the loaded records,
      which it updates in place and collects. */
  method CreateHashedDatabase(ext: Externals, songs: array<SongRecord>) returns (r: Result<seq<SongRecord>>)
    modifies songs
    ensures r == HashedDatabase(ext, old(songs[..]))
    ensures r.Success? ==> songs[..] == r.value
  {
    ghost var original := songs[..];
    var hashedDatabase: seq<SongRecord> := [];
    var i := 0;
    while i < songs.Length
      invariant 0 <= i <= songs.Length
      invariant songs[i..] == original[i..]
      invariant songs[..i] == hashedDatabase
      invariant HashedDatabase(ext, original[..i]) == Success(hashedDatabase)
    {
      assert original[..i + 1][..i] == original[..i];
      var song := songs[i];
      assert song == original[i];
      var s := PerceptualHash(ext, song.songFeatures);
      if s.Failure? {
        MapResultPrefixFails(song => HashRecord(ext, song), original, i + 1);
        return Failure(s.error);
      }
      songs[i] := song.(hashes := Some(Hashes(s.value, "", "")));
      var v := PerceptualHash(ext, song.vocalFeatures);
      if v.Failure? {
        MapResultPrefixFails(song => HashRecord(ext, song), original, i + 1);
        return Failure(v.error);
      }
      songs[i] := songs[i].(hashes := Some(Hashes(s.value, v.value, "")));
      var m := PerceptualHash(ext, song.musicFeatures);
      if m.Failure? {
        MapResultPrefixFails(song => HashRecord(ext, song), original, i + 1);
        return Failure(m.error);
      }
      songs[i] := songs[i].(hashes := Some(Hashes(s.value, v.value, m.value)));
      hashedDatabase := hashedDatabase + [songs[i]];
      assert songs[..i + 1] == songs[..i] + [songs[i]];
      assert songs[i + 1..] == original[i + 1..] by {
        assert forall k :: i + 1 <= k < songs.Length ==> songs[k] == old(songs[k]);
      }
      i := i + 1;
    }
    assert original[..i] == original;
    return Success(hashedDatabase);
  }

  /** A record keeps its features and other fields and gains the digests of
      its three feature dicts; it fails with the first dict that fails. */
  lemma HashRecordSpec(ext: Externals, song: SongRecord)
    ensures HashRecord(ext, song).Success? <==>
      DraftDigest(ext, song.songFeatures).Success? &&
      DraftDigest(ext, song.vocalFeatures).Success? &&
      DraftDigest(ext, song.musicFeatures).Success?
    ensures HashRecord(ext, song).Success? ==>
      var out := HashRecord(ext, song).value;
      out.songFeatures == song.songFeatures &&
      out.vocalFeatures == song.vocalFeatures &&
      out.musicFeatures == song.musicFeatures &&
      out.otherFields == song.otherFields &&
      out.hashes == Some(Hashes(
        DraftDigest(ext, song.songFeatures).value,
        DraftDigest(ext, song.vocalFeatures).value,
        DraftDigest(ext, song.musicFeatures).value))
  {
  }

  /** One record out per record in, in order, each the hashed form of its input. */
  lemma HashedDatabaseSpec(ext: Externals, songs: seq<SongRecord>)
    ensures HashedDatabase(ext, songs).Success? <==> forall i :: 0 <= i < |songs| ==> HashRecord(ext, songs[i]).Success?
    ensures HashedDatabase(ext, songs).Success? ==>
      |HashedDatabase(ext, songs).value| == |songs| &&
      forall i :: 0 <= i < |songs| ==> HashedDatabase(ext, songs).value[i] == HashRecord(ext, songs[i]).value
  {
    MapResultSpec(song => HashRecord(ext, song), songs);
  }

  /** The sample record of the file: its `music_features` lists are all empty,
      so hashing it raises at `.max()`. */
  lemma SampleSongFails(ext: Externals)
    requires ext.NormIsL2()
    ensures var sample := SongRecord(
        [("spectral_centroid", Num(0.1)), ("mfccs", Floats([]))],
        [("pitch", Num(0.1)), ("harmonic_to_noise_ratio", Num(0.2)), ("formants", Floats([]))],
        [("chroma", Floats([])), ("spectral_peaks", Floats([]))],
        [("song_name", Other)], None);
      HashRecord(ext, sample) == Failure(EmptyReduction)
  {
    var sf: Dict := [("spectral_centroid", Num(0.1)), ("mfccs", Floats([]))];
    var vf: Dict := [("pitch", Num(0.1)), ("harmonic_to_noise_ratio", Num(0.2)), ("formants", Floats([]))];
    var mf: Dict := [("chroma", Floats([])), ("spectral_peaks", Floats([]))];
    SampleVectors(sf, vf);
    DraftVectorSpec(ext, sf);
    DraftVectorSpec(ext, vf);
    EmptyFeaturesFail(ext, mf);
  }

  lemma SampleVectors(sf: Dict, vf: Dict)
    requires sf == [("spectral_centroid", Num(0.1)), ("mfccs", Floats([]))]
    requires vf == [("pitch", Num(0.1)), ("harmonic_to_noise_ratio", Num(0.2)), ("formants", Floats([]))]
    ensures FlattenListOrAppend(sf) == Success([0.1])
    ensures FlattenListOrAppend(vf) == Success([0.1, 0.2])
  {
    var e: seq<real> := [];
    assert FlattenListOrAppend(sf[1..]) == Success(e) by {
      assert sf[1..][1..] == [];
      assert e + e == e;
    }
    assert [0.1] + e == [0.1];
    assert FlattenListOrAppend(vf[2..]) == Success(e) by {
      assert vf[2..][1..] == [];
      assert e + e == e;
    }
    assert vf[1..][1..] == vf[2..];
    assert [0.2] + e == [0.2];
    assert FlattenListOrAppend(vf[1..]) == Success([0.2]);
    assert [0.1] + [0.2] == [0.1, 0.2];
  }
}
