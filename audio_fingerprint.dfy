/** The constellation part of Audio_Fingerprint.py: the peak threshold and
    neighbourhood rule, the per-column peak loop, the energy envelope, and
    the fingerprint record built at construction. */
module AudioFingerprint {
  import opened Base
  import opened Vectors
  import opened Features
  import HashSearch

  /** A magnitude spectrogram, frequency rows by time columns. */
  type Matrix = m: seq<seq<real>> | forall i, j :: 0 <= i < |m| && 0 <= j < |m| ==> |m[i]| == |m[j]|

  /** `spectrogram.shape[1]`. */
  function Cols(sg: Matrix): nat
  {
    if sg == [] then 0 else |sg[0]|
  }

  /** `spectrogram[:, t]`. */
  function Column(sg: Matrix, t: nat): (c: seq<real>)
    requires t < Cols(sg)
    ensures |c| == |sg| && forall f :: 0 <= f < |sg| ==> c[f] == sg[f][t]
  {
    seq(|sg|, f requires 0 <= f < |sg| => sg[f][t])
  }

  /** The library numerics the class calls: `np.std`, `scipy.signal.find_peaks`
      and the librosa features of `__extract_general_features`. */
  datatype Analysis = Analysis(
    std: Matrix -> real,
    findPeaks: (seq<real>, real, int) -> seq<int>,
    centroid: (Matrix, real) -> real,
    contrast: (Matrix, real) -> seq<real>,
    mfccs: (Matrix, real) -> seq<real>)
  {
    /** What `find_peaks(x, height=h, distance=d)` promises: ascending
        indices into `x`, each at least `h` high, neighbours at least `d` apart. */
    ghost predicate FindPeaksContract()
    {
      forall x, h, d, k :: 0 <= k < |findPeaks(x, h, d)| ==>
        0 <= findPeaks(x, h, d)[k] < |x| && x[findPeaks(x, h, d)[k]] >= h &&
        (k > 0 ==> findPeaks(x, h, d)[k - 1] < findPeaks(x, h, d)[k] &&
                   findPeaks(x, h, d)[k] - findPeaks(x, h, d)[k - 1] >= d)
    }
  }

  // ---------------------------------------------------------------------
  // __obtain_min_peaks_and_neighborhood_size.

  const DefaultFftSize: int := 2048

  /** Every magnitude, row after row. */
  function Entries(sg: seq<seq<real>>): (e: seq<real>)
    ensures |sg| > 0 && |sg[0]| > 0 ==> |e| > 0
  {
    if sg == [] then [] else sg[0] + Entries(sg[1..])
  }

  function Sum(v: seq<real>): real
  {
    if v == [] then 0.0 else v[0] + Sum(v[1..])
  }

  /** Python's `int()` on a float: truncation toward zero. */
  function TruncToInt(x: real): (n: int)
    ensures x >= 0.0 ==> n == x.Floor
    ensures x < 0.0 ==> n == -((-x).Floor)
  {
    if x >= 0.0 then x.Floor else -((-x).Floor)
  }

  /** `min(mean + 1.5 * std, max * 0.1)`: Python's `min` keeps the first
      argument unless the second is smaller. */
  function MinPeakHeight(mean: real, std: real, max: real): (h: real)
    ensures h <= mean + 1.5 * std && h <= max * 0.1
    ensures h == mean + 1.5 * std || h == max * 0.1
  {
    var adaptive := mean + 1.5 * std;
    var alt := max * 0.1;
    if alt < adaptive then alt else adaptive
  }

  /** `max(5, int(fft_size / spectrogram.shape[0] * 2))`. */
  function NeighborhoodSize(fftSize: int, rows: nat): (n: int)
    requires rows > 0
    ensures n >= 5 && n >= TruncToInt(fftSize as real / rows as real * 2.0)
    ensures n == 5 || n == TruncToInt(fftSize as real / rows as real * 2.0)
  {
    var scaled := TruncToInt(fftSize as real / rows as real * 2.0);
    if 5 < scaled then scaled else 5
  }

  /** With the default FFT size the rule is `max(5, 4096 div rows)`: 5 exactly
      from 683 rows on, so for the 1025 bins of a 2048-point STFT. */
  lemma NeighborhoodDefault(rows: nat)
    requires rows > 0
    ensures NeighborhoodSize(DefaultFftSize, rows) == if 4096 / rows > 5 then 4096 / rows else 5
    ensures NeighborhoodSize(DefaultFftSize, rows) == 5 <==> rows >= 683
  {
    var x := DefaultFftSize as real / rows as real * 2.0;
    var q, m := 4096 / rows, 4096 % rows;
    assert x == 4096.0 / rows as real;
    FloorOfQuotient(4096, rows);
    if rows >= 683 {
      assert q * rows <= 4096;
      assert q <= 5;
    } else {
      assert (q + 1) * rows > 4096;
      assert q >= 6;
    }
  }

  /** The real quotient of two naturals rounds down to their integer quotient. */
  lemma FloorOfQuotient(a: nat, b: nat)
    requires b > 0
    ensures (a as real / b as real).Floor == a / b
  {
    var q, m := a / b, a % b;
    var x := a as real / b as real;
    assert a as real == q as real * b as real + m as real;
    assert x == q as real + m as real / b as real;
    assert 0.0 <= m as real / b as real < 1.0;
  }

  /** The threshold and the neighbourhood, or the error `np.max` raises on an
      empty spectrogram. */
  function PeakParameters(an: Analysis, sg: Matrix, fftSize: int): (r: Result<(real, int)>)
    ensures r.Success? <==> Cols(sg) > 0
    ensures r.Success? ==> r.value.1 >= 5 && r.value.0 <= MaxOf(Entries(sg)) * 0.1
  {
    if Cols(sg) == 0 then Failure(EmptyReduction)
    else
      var e := Entries(sg);
      var mean := Sum(e) / |e| as real;
      Success((MinPeakHeight(mean, an.std(sg), MaxOf(e)), NeighborhoodSize(fftSize, |sg|)))
  }

  // ---------------------------------------------------------------------
  // __calculate_spectral_peaks.

  /** `[int(f), t]` for each index `f` of one column. */
  function FramePairs(idx: seq<int>, t: nat): (r: seq<(int, int)>)
    ensures |r| == |idx| && forall k :: 0 <= k < |idx| ==> r[k] == (idx[k], t)
  {
    if idx == [] then [] else FramePairs(idx[..|idx| - 1], t) + [(idx[|idx| - 1], t)]
  }

  /** The peaks list after the first `t` columns. */
  function PeaksUpTo(an: Analysis, sg: Matrix, h: real, d: int, t: nat): seq<(int, int)>
    requires t <= Cols(sg)
  {
    if t == 0 then []
    else PeaksUpTo(an, sg, h, d, t - 1) + FramePairs(an.findPeaks(Column(sg, t - 1), h, d), t - 1)
  }

  /** What `__calculate_spectral_peaks` returns: the peaks list and the peaks set. */
  function SpectralPeaks(an: Analysis, sg: Matrix): Result<(seq<(int, int)>, set<(int, int)>)>
  {
    var (h, d) :- PeakParameters(an, sg, DefaultFftSize);
    var peaks := PeaksUpTo(an, sg, h, d, Cols(sg));
    Success((peaks, set p | p in peaks))
  }

  method CalculateSpectralPeaks(an: Analysis, sg: Matrix) returns (r: Result<(seq<(int, int)>, set<(int, int)>)>)
    ensures r == SpectralPeaks(an, sg)
  {
    var params := PeakParameters(an, sg, DefaultFftSize);
    if params.Failure? {
      return Failure(params.error);
    }
    var (h, d) := params.value;
    var peaks: seq<(int, int)> := [];
    var peaksSet: set<(int, int)> := {};
    var t := 0;
    while t < Cols(sg)
      invariant 0 <= t <= Cols(sg)
      invariant peaks == PeaksUpTo(an, sg, h, d, t)
      invariant peaksSet == set p | p in peaks
    {
      var idx := an.findPeaks(Column(sg, t), h, d);
      var k := 0;
      while k < |idx|
        invariant 0 <= k <= |idx|
        invariant peaks == PeaksUpTo(an, sg, h, d, t) + FramePairs(idx[..k], t)
        invariant peaksSet == set p | p in peaks
      {
        assert idx[..k + 1][..k] == idx[..k];
        peaks := peaks + [(idx[k], t)];
        peaksSet := peaksSet + {(idx[k], t)};
        k := k + 1;
      }
      assert idx[..k] == idx;
      t := t + 1;
    }
    return Success((peaks, peaksSet));
  }

  /** An entry `(f, t)` is in the list exactly when `t` is a column already
      processed and `f` is one of the indices `find_peaks` gave for it. */
  lemma {:induction false} PeaksMembers(an: Analysis, sg: Matrix, h: real, d: int, t: nat)
    requires t <= Cols(sg)
    ensures forall f: int, c: int :: (f, c) in PeaksUpTo(an, sg, h, d, t) <==>
      0 <= c < t && f in an.findPeaks(Column(sg, c), h, d)
  {
    if t > 0 {
      PeaksMembers(an, sg, h, d, t - 1);
      var idx := an.findPeaks(Column(sg, t - 1), h, d);
      var fr := FramePairs(idx, t - 1);
      forall f: int, c: int
        ensures (f, c) in PeaksUpTo(an, sg, h, d, t) <==> 0 <= c < t && f in an.findPeaks(Column(sg, c), h, d)
      {
        if (f, c) in fr {
          var k :| 0 <= k < |fr| && fr[k] == (f, c);
          assert idx[k] == f;
        }
        if c == t - 1 && f in idx {
          var k :| 0 <= k < |idx| && idx[k] == f;
          assert fr[k] == (f, c);
        }
      }
    }
  }

  /** Columns come in increasing time order: the list is grouped by time index. */
  lemma {:induction false} PeaksGroupedByTime(an: Analysis, sg: Matrix, h: real, d: int, t: nat)
    requires t <= Cols(sg)
    ensures forall i, j :: 0 <= i < j < |PeaksUpTo(an, sg, h, d, t)| ==>
      PeaksUpTo(an, sg, h, d, t)[i].1 <= PeaksUpTo(an, sg, h, d, t)[j].1 < t
  {
    if t > 0 {
      PeaksGroupedByTime(an, sg, h, d, t - 1);
      var pre := PeaksUpTo(an, sg, h, d, t - 1);
      var fr := FramePairs(an.findPeaks(Column(sg, t - 1), h, d), t - 1);
      var all := pre + fr;
      forall i, j | 0 <= i < j < |all| ensures all[i].1 <= all[j].1 < t {
        if j < |pre| {
          assert all[i] == pre[i] && all[j] == pre[j];
        } else if i < |pre| {
          assert all[i] == pre[i] && all[j] == fr[j - |pre|];
          PeaksBelow(an, sg, h, d, t - 1, i);
        } else {
          assert all[i] == fr[i - |pre|] && all[j] == fr[j - |pre|];
        }
      }
    }
  }

  /** Lexicographic order on (time, frequency). */
  predicate Before(p: (int, int), q: (int, int))
  {
    p.1 < q.1 || (p.1 == q.1 && p.0 < q.0)
  }

  /** With `find_peaks` as promised, the list is strictly increasing in
      (time, frequency), every frequency is a row index, and no pair repeats:
      the set has exactly as many elements as the list. */
  lemma PeaksDistinct(an: Analysis, sg: Matrix)
    requires an.FindPeaksContract() && SpectralPeaks(an, sg).Success?
    ensures var (peaks, peaksSet) := SpectralPeaks(an, sg).value;
      (forall i :: 0 <= i < |peaks| ==> 0 <= peaks[i].0 < |sg| && 0 <= peaks[i].1 < Cols(sg)) &&
      (forall i, j :: 0 <= i < j < |peaks| ==> Before(peaks[i], peaks[j])) &&
      |peaksSet| == |peaks|
  {
    var (h, d) := PeakParameters(an, sg, DefaultFftSize).value;
    var peaks := PeaksUpTo(an, sg, h, d, Cols(sg));
    PeaksIncreasing(an, sg, h, d, Cols(sg));
    PeaksMembers(an, sg, h, d, Cols(sg));
    forall i | 0 <= i < |peaks| ensures 0 <= peaks[i].0 < |sg| && 0 <= peaks[i].1 < Cols(sg) {
      var (f, c) := peaks[i];
      assert (f, c) in peaks;
      var idx := an.findPeaks(Column(sg, c), h, d);
      var k :| 0 <= k < |idx| && idx[k] == f;
    }
    IncreasingCard(peaks);
  }

  lemma {:induction false} PeaksIncreasing(an: Analysis, sg: Matrix, h: real, d: int, t: nat)
    requires an.FindPeaksContract() && t <= Cols(sg)
    ensures forall i, j :: 0 <= i < j < |PeaksUpTo(an, sg, h, d, t)| ==>
      Before(PeaksUpTo(an, sg, h, d, t)[i], PeaksUpTo(an, sg, h, d, t)[j])
  {
    if t > 0 {
      PeaksIncreasing(an, sg, h, d, t - 1);
      PeaksGroupedByTime(an, sg, h, d, t - 1);
      var pre := PeaksUpTo(an, sg, h, d, t - 1);
      var idx := an.findPeaks(Column(sg, t - 1), h, d);
      var fr := FramePairs(idx, t - 1);
      AscendingIndices(an, Column(sg, t - 1), h, d);
      var all := pre + fr;
      forall i, j | 0 <= i < j < |all| ensures Before(all[i], all[j]) {
        if j < |pre| {
          assert all[i] == pre[i] && all[j] == pre[j];
        } else if i < |pre| {
          assert all[i] == pre[i] && all[j] == fr[j - |pre|];
          PeaksBelow(an, sg, h, d, t - 1, i);
        } else {
          assert all[i] == fr[i - |pre|] && all[j] == fr[j - |pre|];
        }
      }
    }
  }

  lemma PeaksBelow(an: Analysis, sg: Matrix, h: real, d: int, t: nat, i: nat)
    requires t <= Cols(sg) && i < |PeaksUpTo(an, sg, h, d, t)|
    ensures PeaksUpTo(an, sg, h, d, t)[i].1 < t
  {
    PeaksMembers(an, sg, h, d, t);
    var p := PeaksUpTo(an, sg, h, d, t)[i];
    assert (p.0, p.1) in PeaksUpTo(an, sg, h, d, t);
  }

  /** The contract's neighbour ordering extends to every pair of indices. */
  lemma AscendingIndices(an: Analysis, x: seq<real>, h: real, d: int)
    requires an.FindPeaksContract()
    ensures forall i, j :: 0 <= i < j < |an.findPeaks(x, h, d)| ==> an.findPeaks(x, h, d)[i] < an.findPeaks(x, h, d)[j]
  {
    var idx := an.findPeaks(x, h, d);
    forall i, j | 0 <= i < j < |idx| ensures idx[i] < idx[j] {
      AscendingFrom(an, x, h, d, i, j);
    }
  }

  lemma {:induction false} AscendingFrom(an: Analysis, x: seq<real>, h: real, d: int, i: nat, j: nat)
    requires an.FindPeaksContract() && i < j < |an.findPeaks(x, h, d)|
    ensures an.findPeaks(x, h, d)[i] < an.findPeaks(x, h, d)[j]
    decreases j - i
  {
    if i + 1 < j {
      AscendingFrom(an, x, h, d, i, j - 1);
    }
  }

  /** A strictly increasing list has no repeats, so its set is as large as it is. */
  lemma {:induction false} IncreasingCard(s: seq<(int, int)>)
    requires forall i, j :: 0 <= i < j < |s| ==> Before(s[i], s[j])
    ensures |set p | p in s| == |s|
  {
    if s != [] {
      var tail := s[1..];
      assert forall i, j :: 0 <= i < j < |tail| ==> Before(tail[i], tail[j]) by {
        forall i, j | 0 <= i < j < |tail| ensures Before(tail[i], tail[j]) {
          assert tail[i] == s[i + 1] && tail[j] == s[j + 1];
        }
      }
      IncreasingCard(tail);
      assert s[0] !in tail by {
        forall k | 0 <= k < |tail| ensures tail[k] != s[0] {
          assert tail[k] == s[k + 1];
          assert Before(s[0], s[k + 1]);
        }
      }
      SetOfCons(s);
    }
  }

  lemma SetOfCons(s: seq<(int, int)>)
    requires s != [] && s[0] !in s[1..]
    ensures |set p | p in s| == |set p | p in s[1..]| + 1
  {
    var a := set p | p in s;
    var b := set p | p in s[1..];
    assert a == b + {s[0]} by {
      forall x ensures x in a <==> x in b + {s[0]} {
        if x in s && x != s[0] {
          var k :| 0 <= k < |s| && s[k] == x;
          assert s[1..][k - 1] == x;
        }
      }
    }
    assert s[0] !in b;
  }

  // ---------------------------------------------------------------------
  // __extract_general_features and __create_fingerprint.

  /** `np.sum(spectrogram, axis=0)`: one total per time frame. */
  function ColumnSums(sg: Matrix): (e: seq<real>)
    ensures |e| == Cols(sg)
    ensures forall t :: 0 <= t < Cols(sg) ==> e[t] == Sum(Column(sg, t))
  {
    seq(Cols(sg), t requires 0 <= t < Cols(sg) => Sum(Column(sg, t)))
  }

  /** Summing the frame totals gives the total of the whole spectrogram:
      `np.sum(spectrogram, axis=0)` only regroups the magnitudes. */
  lemma {:induction false} ColumnSumsTotal(sg: Matrix)
    ensures Sum(ColumnSums(sg)) == Sum(Entries(sg))
  {
    if sg == [] {
    } else if |sg| == 1 {
      var r := sg[0];
      forall t | 0 <= t < Cols(sg) ensures ColumnSums(sg)[t] == r[t] {
        var c := Column(sg, t);
        assert c == [r[t]] && c[1..] == [];
        assert Sum(c) == r[t] + Sum([]);
      }
      assert ColumnSums(sg) == r;
      assert sg[1..] == [];
      assert Entries(sg) == r + [];
      assert r + [] == r;
    } else {
      var rest: Matrix := sg[1..];
      assert Cols(rest) == Cols(sg);
      ColumnSumsTotal(rest);
      forall t | 0 <= t < Cols(sg) ensures ColumnSums(sg)[t] == sg[0][t] + ColumnSums(rest)[t] {
        assert Column(sg, t)[1..] == Column(rest, t);
      }
      SumPointwise(sg[0], ColumnSums(rest), ColumnSums(sg));
      SumConcat(sg[0], Entries(rest));
    }
  }

  lemma {:induction false} SumConcat(a: seq<real>, b: seq<real>)
    ensures Sum(a + b) == Sum(a) + Sum(b)
  {
    if a != [] {
      assert (a + b)[1..] == a[1..] + b;
      SumConcat(a[1..], b);
    } else {
      assert a + b == b;
    }
  }

  lemma {:induction false} SumPointwise(a: seq<real>, b: seq<real>, c: seq<real>)
    requires |a| == |b| == |c|
    requires forall i :: 0 <= i < |c| ==> c[i] == a[i] + b[i]
    ensures Sum(c) == Sum(a) + Sum(b)
  {
    if c != [] {
      SumPointwise(a[1..], b[1..], c[1..]);
    }
  }

  /** The energy envelope: column totals through `min_max_normalize` as written. */
  function EnergyEnvelope(sg: Matrix): Result<seq<real>>
  {
    HashSearch.MinMaxNormalize(ColumnSums(sg))
  }

  /** One entry per time frame, each the frame total moved by one constant. */
  lemma EnergyEnvelopeSpec(sg: Matrix)
    ensures EnergyEnvelope(sg).Success? <==>
      Cols(sg) > 0 && MaxOf(ColumnSums(sg)) != MinOf(ColumnSums(sg))
    ensures EnergyEnvelope(sg).Success? ==>
      |EnergyEnvelope(sg).value| == Cols(sg) &&
      forall t, u :: 0 <= t < Cols(sg) && 0 <= u < Cols(sg) ==>
        EnergyEnvelope(sg).value[t] - EnergyEnvelope(sg).value[u] == Sum(Column(sg, t)) - Sum(Column(sg, u))
  {
    if EnergyEnvelope(sg).Success? {
      HashSearch.MinMaxShifts(ColumnSums(sg));
    }
  }

  /** `p_hash(raw_features)` on a single dict: the loop walks the dict's keys
      and hands each string to `flatten_and_normalize`, whose `.items()`
      call fails on a string. */
  function PHashOfDict(d: Dict): (r: Result<seq<string>>)
    ensures r.Success? <==> d == []
  {
    if d == [] then Success([]) else Failure(MissingAttribute)
  }

  /** The five entries `__extract_general_features` returns. */
  function GeneralFeatures(centroid: real, contrast: seq<real>, mfccs: seq<real>, energy: seq<real>, peaks: seq<(int, int)>): (d: Dict)
    ensures |d| == 5 && DistinctKeys(d)
  {
    [("spectral_centroid", Num(centroid)),
     ("spectral_contrast", Floats(contrast)),
     ("mfccs", Floats(mfccs)),
     ("energy_envelope", Floats(energy)),
     ("spectral_peaks", Nested(PeakRows(peaks)))]
  }

  /** The peaks as the list of `[f, t]` lists stored under "spectral_peaks". */
  function PeakRows(peaks: seq<(int, int)>): (rows: seq<seq<real>>)
    ensures |rows| == |peaks|
    ensures forall i :: 0 <= i < |peaks| ==> rows[i] == [peaks[i].0 as real, peaks[i].1 as real]
  {
    seq(|peaks|, i requires 0 <= i < |peaks| => [peaks[i].0 as real, peaks[i].1 as real])
  }

  /** The fingerprint dict `__create_fingerprint` builds. */
  datatype FingerprintRecord = FingerprintRecord(
    filePath: string, audioName: string, dimension: string,
    rawFeatures: Dict, hashStr: seq<string>)

  /** A fingerprinted audio file. The constructor stores its arguments, then
      extracts the features, filling the envelope and the peaks as it goes,
      and ends by building the fingerprint record. */
  class AudioFingerprint {
    var audioName: string
    var path: string
    var dimension: string
    var samplingRate: real
    var sg: Matrix
    var energyEnvelope: Result<seq<real>>
    var spectralPeaks: seq<(int, int)>
    var peaksSet: set<(int, int)>
    /** The record, or the exception that escapes `__init__`. */
    var fingerprint: Result<FingerprintRecord>

    constructor (an: Analysis, audioName: string, dimension: string, filePath: string, samplingRate: real, spectrogram: Matrix)
      ensures this.audioName == audioName && this.path == filePath && this.dimension == dimension
      ensures this.samplingRate == samplingRate && this.sg == spectrogram
      ensures energyEnvelope == EnergyEnvelope(spectrogram)
      ensures energyEnvelope.Success? ==>
        SpectralPeaks(an, spectrogram).Success? &&
        spectralPeaks == SpectralPeaks(an, spectrogram).value.0 &&
        peaksSet == SpectralPeaks(an, spectrogram).value.1
      ensures fingerprint == CreateFingerprint(an, audioName, dimension, filePath, samplingRate, spectrogram)
    {
      this.audioName := audioName;
      this.path := filePath;
      this.dimension := dimension;
      this.samplingRate := samplingRate;
      this.sg := spectrogram;
      var envelope := EnergyEnvelope(spectrogram);
      energyEnvelope := envelope;
      if envelope.Failure? {
        spectralPeaks, peaksSet := [], {};
        fingerprint := Failure(envelope.error);
      } else {
        EnergyEnvelopeSpec(spectrogram);
        var peaks := CalculateSpectralPeaks(an, spectrogram);
        var (peakList, peakSet) := peaks.value;
        spectralPeaks, peaksSet := peakList, peakSet;
        var raw := GeneralFeatures(an.centroid(spectrogram, samplingRate), an.contrast(spectrogram, samplingRate),
          an.mfccs(spectrogram, samplingRate), envelope.value, peakList);
        match PHashOfDict(raw) {
          case Failure(e) => fingerprint := Failure(e);
          case Success(hashStr) => fingerprint := Success(FingerprintRecord(filePath, audioName, dimension, raw, hashStr));
        }
      }
    }
  }

  /** The outcome of `__create_fingerprint`, the step that ends `__init__`. */
  function CreateFingerprint(an: Analysis, audioName: string, dimension: string, filePath: string, samplingRate: real, sg: Matrix): Result<FingerprintRecord>
  {
    var energy :- EnergyEnvelope(sg);
    var (peaks, _) :- SpectralPeaks(an, sg);
    var raw := GeneralFeatures(an.centroid(sg, samplingRate), an.contrast(sg, samplingRate),
      an.mfccs(sg, samplingRate), energy, peaks);
    match PHashOfDict(raw)
    case Failure(e) => Failure(e)
    case Success(hashStr) => Success(FingerprintRecord(filePath, audioName, dimension, raw, hashStr))
  }

  /** No fingerprint is ever built: every spectrogram either fails in the
      envelope or reaches `p_hash` with a five-key dict, which raises. */
  lemma FingerprintAlwaysFails(an: Analysis, audioName: string, dimension: string, filePath: string, samplingRate: real, sg: Matrix)
    ensures CreateFingerprint(an, audioName, dimension, filePath, samplingRate, sg).Failure?
    ensures EnergyEnvelope(sg).Success? ==>
      CreateFingerprint(an, audioName, dimension, filePath, samplingRate, sg) == Failure(MissingAttribute)
  {
    EnergyEnvelopeSpec(sg);
  }
}
