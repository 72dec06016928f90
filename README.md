# DSP_FingerPrint in Dafny

This project models the deterministic core of DSP_FingerPrint, a song-identification tool.

**Fingerprinting.** An audio file becomes a spectrogram. Feature dictionaries are built from the spectrogram, and each dictionary is reduced to a SHA-256 hex digest, a "perceptual hash". A query is answered by decoding its digest and the stored digests back into bytes, measuring a distance between them, and returning the `top_n` nearest songs.

**What is modelled:**

- **Flattening and digests.** The three kinds of flattening that turn a feature dictionary into a vector:
  - sorted keys, with scalars and lists kept;
  - insertion order, with only ndarrays kept;
  - insertion order, with lists spliced and everything else appended.
- **Normalisation gates.** The two gates in front of normalisation: "norm > 0" and "max > 0".
- **Hex and distances.** `bytes.fromhex` and `hexdigest`, the byte-level Hamming distance, and the dispatch on metric codes.
- **Search.** Both digest searches: the module-level one and the one in `Match_Maker`.
- **Peaks.** The spectral-peak loop of `Audio_Fingerprint` and the derivation of its threshold and neighbourhood.
- **Small helpers.**
  - the peak and min-max normalisations;
  - the column-wise in-place min-max of draft.py;
  - the sorted, ranked song list of the user interface.

**How the model is built:**

- **Files.** There is one module per source file or concern.
  - `Base`, `Vectors`, `Hex`, `Features`, `Distance` and `Ranking` hold the shared vocabulary: results and errors, real vectors, base-16 text, Python dicts, scipy metrics, and the stable sort.
  - `HashSearch` covers processing_and_searching.py and hash_and_search.py. The second file is processing_and_searching.py without its lines 5-60: the `os` and `librosa` imports and `peak_normalize`, `min_max_normalize`, `extract_audio_signal`, `mix_audio` and `generate_spectrogram` are gone, and everything else is repeated word for word.
  - `HashDraft` covers the `perceptual_hash` shared by hash_draft.py and DB_Generator.py, and the record loop of hash_draft.py.
  - `AudioFingerprint` covers Audio_Fingerprint.py.
  - `MatchMaker` covers matchmaker.py.
  - `Draft` covers draft.py.
  - `SongList` covers `ScrollableSongList` of song_widget.py and main.py. The two files hold the same algorithm and differ only in the attribute name `similarity` versus `similarity_index`.
- **Exceptions.** Every Python exception becomes a `Failure(e)` of `Base.Result`. numpy results that would be `inf` or `nan` are `Failure(NonFinite)`.
- **Loops and state.** Loops of the source are methods with loop invariants, proved equal to specification functions. Objects whose fields change are classes; lists changed in place are arrays or `seq` fields.
- **Libraries.** They are parameters:
  - `Base.Externals`: SHA-256, `str(list).encode()`, `ndarray.tobytes()`, `np.linalg.norm`. The predicate `NormIsL2` says the norm is the true L2 norm; lemmas that need it require it.
  - `Distance.Metrics`: the four scipy distances other than Hamming.
  - `AudioFingerprint.Analysis`: `np.std`, `find_peaks`, and the librosa features. The predicate `FindPeaksContract` states what `find_peaks` promises: indices in range, strictly increasing, and at least `distance` apart.

## Model

| member | source | states |
|---|---|---|
| HashSearch.PeakNormalize | processing_and_searching.py:8-11 | succeeds exactly for a non-empty array with a non-zero maximum (empty raises, a zero maximum gives nan); same length |
| HashSearch.PeakNormalizeBounds | processing_and_searching.py:8-11 | with a positive maximum every value ends at most 1 and some value is exactly 1 |
| HashSearch.MinMaxNormalize | processing_and_searching.py:13-18 | succeeds exactly for a non-empty array whose max differs from its min; same length |
| HashSearch.MinMaxShifts | processing_and_searching.py:17 | because `/` binds tighter than `-`, every element moves by one constant: all pairwise differences are kept |
| HashSearch.MinMaxExample | processing_and_searching.py:17 | [1, 3] becomes [0.5, 2.5], which is not a [0, 1] rescaling |
| HashSearch.FlattenAndNormalize | processing_and_searching.py:62-76 | the loop over the sorted items returns exactly the specified normalised list, or the error numpy raises on a nested list |
| HashSearch.NormalizedSpec | processing_and_searching.py:73-76 | with the true L2 norm the list has unit norm when the flattened vector is not all zero, and is the flattened vector unchanged when it is |
| Features.SortItemsSpec | processing_and_searching.py:65 | `sorted(d.items())` holds exactly the items of `d`, in strictly increasing key order |
| Features.SortItemsOrderFree | processing_and_searching.py:65 | two dicts with the same items, whatever their insertion order, sort to the same list |
| Features.FlattenScalarsListsIgnoresOthers | processing_and_searching.py:66-69 | a dict whose values are all neither numbers nor lists flattens to the empty vector |
| Features.SkippedValueScalarsLists | processing_and_searching.py:66-69 | an ndarray or other value anywhere among numbers and lists leaves the sorted flattening as it is without that value |
| Features.FlattenSortedOrderFree | hash_and_search.py:9-13 | the sorted flattening is the same for dicts with the same items in any order |
| HashSearch.PHash | processing_and_searching.py:78-88 | the loop returns exactly the digests of the dimensions in order, or the first dimension's error |
| HashSearch.DigestsSpec | processing_and_searching.py:78-88 | `p_hash` succeeds exactly when every dimension normalises, giving one digest per dimension in input order, each 64 lower-case hex characters |
| HashSearch.DigestSkipsOthers | processing_and_searching.py:65-69 | an ndarray or other value anywhere in a dimension's dict (keys distinct) leaves its digest as it is without that value |
| HashSearch.DigestOrderFree | hash_and_search.py:22-32 | the digest does not depend on the insertion order of the dimension's keys |
| HashSearch.PerceptualHash | processing_and_searching.py:90-104 | the loop keeps only ndarray values, in insertion order; the result is the specified digest, 64 lower-case hex characters |
| HashSearch.PerceptualDigestSkipsOthers | hash_and_search.py:39-41 | a value that is not an ndarray, anywhere in the dict, leaves the digest as it is without that value |
| Features.FlattenArraysOrderMatters | hash_and_search.py:39-41 | the array-only flattening depends on insertion order: two arrays inserted the other way round give another vector |
| Features.FlattenArraysIgnoresOthers | processing_and_searching.py:95-97 | a dict with no ndarray value flattens to the empty vector |
| Features.SkippedValueArrays | processing_and_searching.py:95-97 | a value that is not an ndarray, anywhere among the items, leaves the array-only flattening as it is without that value |
| HashSearch.PerceptualDigests | processing_and_searching.py:114 | one digest per feature dict, each that dict's digest |
| HashSearch.GenerateHashedDatabase | hash_and_search.py:50-63 | one record per song, in order, holding the song's name and the digests of its feature dicts in order |
| Hex.HexEncodeShape | processing_and_searching.py:104 | `hexdigest()` text is two lower-case hex digits per byte |
| Hex.HexRoundTrip | processing_and_searching.py:145-146 | `bytes.fromhex` of `hexdigest()` text gives back the bytes |
| Hex.LowerHexDecodes | processing_and_searching.py:145-146 | lower-case hex text decodes exactly when its length is even, and is then the hex text of what it decodes to |
| Hex.StrayCharacterFails | processing_and_searching.py:145-146 | any character that is neither a hex digit nor whitespace makes the decoding raise |
| Hex.SpaceBetweenPairs | matchmaker.py:32-33 | a whitespace character after any whole number of lower-case digit pairs is skipped: the text decodes as if it were not there |
| Hex.SpacedPairsDecode | matchmaker.py:32-33 | an example: "ab cd" decodes like "abcd", to the bytes 0xab 0xcd |
| Hex.DigestText | processing_and_searching.py:104 | a SHA-256 digest in hex is 64 lower-case hex characters |
| Distance.HammingSpec | processing_and_searching.py:161-162 | the Hamming distance of two byte arrays lies in [0, 1]; it is 0 exactly when they are equal and 1 exactly when every byte differs; it is symmetric |
| Distance.Hamming | processing_and_searching.py:161-162 | `hamming` succeeds exactly for two arrays of one non-zero length; different lengths raise, and an empty mean is nan |
| HashSearch.HammingOfDigests | hash_and_search.py:105-106 | with the default code 'h', two digests are compared byte by byte: in [0, 1], 0 exactly for equal digests, symmetric |
| HashSearch.UnknownMetricFails | processing_and_searching.py:153-165 | a code other than 'cos', 'e', 'c', 'j' and 'h' raises; with two well-formed digests the error is the unsupported code |
| HashSearch.SongDistanceIsMin | processing_and_searching.py:130 | a song's distance is at most each of its digest distances and equals one of them |
| HashSearch.SearchHashedDatabase | processing_and_searching.py:121-134 | the loop, sort and slice return exactly the specified search result |
| HashSearch.ScoreAllSpec | processing_and_searching.py:128-131 | the scored pairs are the database songs in order, each paired with its distance, or the first error |
| HashSearch.SearchRanked | hash_and_search.py:72-78 | the result has the Python-slice length for `top_n`; each item is an unchanged database song; the items come in non-decreasing distance; the first is at the least distance in the database; equal distances keep database order |
| HashSearch.SearchEmpty | processing_and_searching.py:126-134 | an empty database gives an empty result |
| HashSearch.SearchEmptyDigestsFail | processing_and_searching.py:130 | a song with no stored digests makes the search raise |
| HashSearch.SearchDefaultMetricFails | processing_and_searching.py:121 | the search's own default 'cosine' is not a supported code, so the search raises on every non-empty database |
| Ranking.SortPermutes | processing_and_searching.py:133 | the stable sort is a permutation of its input |
| Ranking.SortSorts | processing_and_searching.py:133 | the stable sort is non-decreasing in the key |
| Ranking.SortIsStable | processing_and_searching.py:133 | entries with equal keys keep their relative order |
| Ranking.RankShape | processing_and_searching.py:133-134 | the ranked list has the Python-slice length, and item `i` is the item of the `i`-th sorted entry |
| Vectors.NormalizedIsUnit | processing_and_searching.py:100-101 | dividing by a positive L2 norm gives a vector of unit norm |
| Vectors.NormalizeIdempotent | processing_and_searching.py:73-74 | normalising an already normalised vector changes nothing |
| HashDraft.PerceptualHash | hash_draft.py:26-42 | the loop (lists spliced, other values appended, in insertion order) returns exactly the specified digest or error; a digest has 64 lower-case hex characters |
| HashDraft.DraftVectorSpec | DB_Generator.py:17-26 | with the true L2 norm a digest exists exactly when the flattening succeeds and is non-empty; with a positive maximum the hashed vector has unit norm, otherwise it is hashed unchanged |
| HashDraft.EmptyFeaturesFail | DB_Generator.py:23-25 | an empty dict, or one whose lists are all empty, raises at `.max()` |
| HashDraft.GateOnMaximum | hash_draft.py:38-39 | the gate is on the maximum: [-2] is hashed as it is (squared norm 4), where the norm gate would make it a unit vector |
| HashDraft.CreateHashedDatabase | hash_draft.py:73-78 | the loop over the loaded records returns exactly the specified list, and on success the records themselves have been updated to it |
| HashDraft.HashRecordSpec | hash_draft.py:75-77 | a record keeps its features and other fields and gains the three digests of its three feature dicts; it fails with the first dict that fails |
| HashDraft.HashedDatabaseSpec | hash_draft.py:73-78 | one output record per input record, in order, each its hashed form, or the first error |
| HashDraft.SampleSongFails | hash_draft.py:6-23 | the file's sample record has only empty lists under "music_features", so hashing it raises |
| AudioFingerprint.MinPeakHeight | Audio_Fingerprint.py:266-272 | the threshold is at most both `mean + 1.5·std` and `0.1·max`, and is one of them |
| AudioFingerprint.NeighborhoodSize | Audio_Fingerprint.py:277 | the neighbourhood is the larger of 5 and `int(fft_size / rows * 2)` truncated toward zero: at least both, and equal to one of them |
| AudioFingerprint.NeighborhoodDefault | Audio_Fingerprint.py:248-277 | with the default FFT size of 2048 the neighbourhood is `max(5, 4096 div rows)`, and it is 5 exactly when there are at least 683 rows |
| AudioFingerprint.PeakParameters | Audio_Fingerprint.py:259-279 | the parameters exist exactly when the spectrogram has a column; then the neighbourhood is at least 5 and the threshold at most 10% of the maximum |
| AudioFingerprint.CalculateSpectralPeaks | Audio_Fingerprint.py:217-246 | the nested loops return exactly the specified peaks list and peaks set |
| AudioFingerprint.PeaksMembers | Audio_Fingerprint.py:236-244 | `(f, t)` is in the list exactly when `t` is a column and `f` is an index `find_peaks` returned for that column with the computed height and distance |
| AudioFingerprint.PeaksGroupedByTime | Audio_Fingerprint.py:234-243 | columns come in increasing time order: the list is ordered by time index |
| AudioFingerprint.PeaksDistinct | Audio_Fingerprint.py:242-244 | under the `find_peaks` contract the list is strictly increasing in (time, frequency), every frequency is a row index, and the set has exactly as many elements as the list |
| AudioFingerprint.ColumnSumsTotal | Audio_Fingerprint.py:87 | the per-frame totals add up to the total of every magnitude of the spectrogram: the column sums only regroup the entries |
| AudioFingerprint.EnergyEnvelopeSpec | Audio_Fingerprint.py:87-90 | the envelope exists exactly when the column totals are not all equal; it has one entry per frame, and its pairwise differences equal those of the totals |
| AudioFingerprint.GeneralFeatures | Audio_Fingerprint.py:52-96 | the feature dict has five distinct keys |
| AudioFingerprint.PHashOfDict | Audio_Fingerprint.py:283 | `p_hash` on a dict walks its string keys and succeeds only on an empty dict |
| AudioFingerprint.AudioFingerprint.constructor | Audio_Fingerprint.py:16-23 | stores name, path, dimension, rate and spectrogram unchanged, sets the envelope and the peaks, and stores the outcome of `__create_fingerprint` |
| AudioFingerprint.FingerprintAlwaysFails | Audio_Fingerprint.py:281-292 | no fingerprint record is ever built: the envelope fails, or `p_hash` raises on the five-key dict |
| MatchMaker.DivideByNorm | matchmaker.py:36-37 | dividing by the norm succeeds exactly for an empty array or a non-zero norm; same length |
| MatchMaker.NormalisedBeforeMetric | matchmaker.py:32-47 | with the true L2 norm and digests that are not all zero, both arrays are unit vectors, and each of 'cosine', 'euclidean', 'cityblock' and 'jensenshannon' applies the scipy metric of that name to them |
| MatchMaker.ZeroDigestFails | matchmaker.py:36 | an all-zero digest has norm 0, so no distance is produced |
| MatchMaker.UnknownNameFails | matchmaker.py:39-48 | any name other than 'cosine', 'euclidean', 'cityblock' and 'jensenshannon' raises, including 'hamming' and the short codes |
| MatchMaker.SearchAsWrittenFails | matchmaker.py:22-26 | as written the query extractor raises TypeError, so the search fails for every spectrogram and every database, the empty one included |
| MatchMaker.InputHashSpec | matchmaker.py:22-26 | with a working extractor the query digest exists exactly when the features flatten to a non-empty vector, and it is then 64 lower-case hex characters |
| MatchMaker.DistanceCallFails | matchmaker.py:59-61 | with a working extractor, a non-empty database still makes the search raise, with AttributeError once the query digest exists |
| MatchMaker.SearchIntendedRanked | matchmaker.py:59-65 | with the private distance method the result has the Python-slice length for `top_n`; each item is an unchanged database song; the items come in non-decreasing distance, the first at the least; equal distances keep database order |
| MatchMaker.Matcher.constructor | matchmaker.py:15-17 | stores the database and the spectrogram |
| MatchMaker.Matcher.UpdateSpectrogram | matchmaker.py:19-20 | replaces the spectrogram and leaves the database unchanged |
| MatchMaker.Matcher.SearchHashedDatabase | matchmaker.py:50-65 | for a given query extractor the method returns exactly the as-written result: the extractor's error, or AttributeError at the first song, or the empty list for an empty database |
| MatchMaker.Matcher.SearchIntendedHashedDatabase | matchmaker.py:54-65 | the loop, sort and slice return exactly the intended search result |
| Draft.ColumnNormalizedSpec | draft.py:53-57 | every entry ends in [0, 1]; in a column whose max differs from its min, the min becomes 0 and the max 1; a constant column becomes 0 |
| Draft.NormalizedColumnExtremes | draft.py:54-55 | a column that is not constant comes out with minimum 0 and maximum 1 |
| Draft.NormalizedConstantColumn | draft.py:56-57 | a constant column comes out all zero |
| Draft.ColumnNormalizedIdempotent | draft.py:39-60 | normalising a second time changes nothing |
| Draft.MinMaxComplexNormalize | draft.py:39-60 | stackable rows are overwritten in place by their column-normalised values, keeping the row count and row lengths; ragged or absent rows raise and change nothing |
| Draft.RescaleColumn | draft.py:54-57 | one pass of the column loop rewrites exactly column `i` |
| Draft.WriteBack | draft.py:59-60 | every sublist is overwritten with its matrix row |
| Draft.MinMaxNormalize | draft.py:62-67 | every element is rewritten in place as `(x - min) / (max - min)`; `max == min` raises on a non-empty list and changes nothing |
| Draft.ScaledAllSpec | draft.py:62-67 | with the list's own min and max the values land in [0, 1], the min at 0 and the max at 1 |
| Draft.Normalize | draft.py:28-35 | the always-true `complex` test sends every list of lists to the column normalisation; the call succeeds exactly when all can be stacked, leaving each normalised; otherwise it raises at the first list that cannot be stacked, with the lists before it normalised and the rest unchanged |
| SongList.InsertPos | song_widget.py:154-159 | the scan counts the leading songs at least as similar as the new one and stops at the first strictly less similar one |
| SongList.InsertPosUnique | main.py:123-128 | that position is the only one with that property |
| SongList.TiesGoAfter | song_widget.py:156-157 | on a sorted list the songs before the new one are exactly those at least as similar, so a new song goes after every song of equal similarity |
| SongList.AfterAddShape | song_widget.py:161-169 | the new song sits at the scan position with rank `insert_pos + 1`; the songs before it are untouched; the later songs are the old ones, relabelled with position + 1 |
| SongList.AddKeepsOrder | main.py:131 | the list grows by one, and with the new song removed the old songs are there in their old order |
| SongList.AddKeepsSorted | main.py:123-131 | a list sorted non-increasing by similarity stays sorted |
| SongList.AddKeepsRanks | main.py:130-138 | if every rank equalled position + 1 before, it still does after |
| SongList.ScrollableSongList.constructor | song_widget.py:147 | the list starts empty |
| SongList.ScrollableSongList.AddSong | song_widget.py:152-169 | the scan loop, the insertion and the relabelling loop leave exactly the specified list |
| SongList.DemoList | song_widget.py:193-201 | the nine demo insertions end as three 95.5s, three 87.3s and three 82.1s, in insertion order, ranked 1 to 9 |

## Left out

- Qt widgets, media playback, file dialogs, librosa feature extraction, spectrogram generation and JSON file I/O are not modelled. The JSON loop of hash_draft.py works on the loaded records, passed in as an array.
- Song_FingerPrint.py is not part of this model. `MatchMaker.ExtractHashedInputFeatures` models only the failing constructor call of matchmaker.py:23; the features a working extractor would produce are a parameter of `MatchMaker.InputHash`.
- matchmaker.py imports `songs_DB` from DB_Generator.py, which defines no such name. The database is passed to the `Matcher` constructor instead.
- SHA-256, `str(list).encode()`, `ndarray.tobytes()`, `np.linalg.norm`, `np.std`, `find_peaks`, and the cosine, euclidean, cityblock and jensenshannon distances are abstract functions. Only the properties named in the table are assumed of them, and only where a lemma requires them.
- Floating point is modelled with exact reals: rounding, overflow and dtype widths are not modelled.
  - Python's `int()` truncation toward zero is written out in `AudioFingerprint.TruncToInt`.
  - The uint8 digests use a `uint8` subset type.
- numpy goes on computing with `inf` and `nan` where the model stops with `Failure(NonFinite)`:
  - a zero maximum in `HashSearch.PeakNormalize`;
  - `max == min` in `HashSearch.MinMaxNormalize` and therefore in the energy envelope;
  - a zero norm in `MatchMaker.DivideByNorm`;
  - the empty Hamming mean.

  AudioFingerprint.AudioFingerprint.constructor: an envelope of `nan`s does not raise in Python, but the model records the failure and stops. This changes nothing downstream, because `HashSearch` and `p_hash` fail on the extracted dict either way.
- A list value that holds lists is spliced by `flatten_and_normalize` and by the draft `perceptual_hash`. It is modelled as the error `MixedShapes` in every case, including shapes numpy could stack into a 2-D array; ndarray values appended by the draft `perceptual_hash` are treated the same way.
- Missing dictionary keys (`KeyError`) are not modelled: records are datatypes with every field present.
- HashSearch.Digest, HashSearch.PerceptualDigest and HashDraft.DraftDigest: `Features.Num` makes a Python int and a float of the same value one real. numpy keeps a vector of ints as an int64 array unless it is divided. That happens when the norm is 0 in `flatten_and_normalize` and in the ndarray-only `perceptual_hash`, and when the maximum is at most 0 in the draft `perceptual_hash`. The `str()` text (`[0]` against `[0.0]`) and the `tobytes()` bytes of such an array differ from the float array's, so Python hashes it to another digest; the model gives the float digest in both cases.
- Draft.MinMaxComplexNormalize: rows are lists of reals, so the matrix is always a float matrix. When every row holds only Python ints, `np.stack` builds an int64 matrix and the assignment of draft.py:55 truncates each quotient toward zero (`[[0], [1], [2]]` becomes `[[0], [0], [1]]`); the model does not capture that truncation.
- In `min_max_complex_normalize` each row is a value. If the same inner list object appears twice in one list of lists, Python's slice assignment writes it twice; the model does not capture that aliasing.
- draft.py imports nothing, so its numpy and typing names do not resolve as written. The model gives them their evident meaning. The `else` branch of `normalize` is unreachable, and only `min_max_normalize` itself is modelled.
- The `print` of the matrix shape in draft.py is not modelled.
- The in-place writes of hash_draft.py into the loaded dicts are modelled by replacing array elements with updated records. The dicts' identity is not modelled.
- The `Match_Maker` attributes `vocal_distances` and `music_distances` are never used by the source and are not modelled.

## Findings

| source | as written | input that shows it | evidently intended | confidence | as-written member | corrected member |
|---|---|---|---|---|---|---|
| matchmaker.py:23-24 | `Song_FingerPrint(input_spectrogram, input_spectrogram, input_spectrogram)` passes three arguments to a constructor that takes four, so it raises TypeError; `get_features` is not a method of that class either | any spectrogram, with any database | build the fingerprint from its four inputs and hash the features it extracts | high (not executed) | MatchMaker.SearchAsWrittenFails | MatchMaker.InputHashSpec |
| matchmaker.py:61 | `self.calculate_hash_distance(...)` names a method that does not exist: the only distance method is the private `__calculate_hash_distance`, so the attribute lookup raises | with a working query extractor, any non-empty `hashed_database` whose query digest exists | call the private `__calculate_hash_distance` and rank the songs by it | high (not executed) | MatchMaker.DistanceCallFails | MatchMaker.SearchIntendedRanked |
