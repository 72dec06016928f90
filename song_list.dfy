/** The ranked result list of the user interface (`ScrollableSongList` of
    song_widget.py and of main.py, which differ only in the name of the
    similarity attribute): songs kept in non-increasing order of similarity,
    each labelled with its rank. */
module SongList {

  /** A `SongListElement`: name, wav file, similarity and the number its rank
      label shows. */
  datatype SongElement = SongElement(name: string, wavFile: string, similarity: real, rank: int)

  /** The song without its rank label. */
  function Entry(s: SongElement): (string, string, real)
  {
    (s.name, s.wavFile, s.similarity)
  }

  function Entries(songs: seq<SongElement>): (r: seq<(string, string, real)>)
    ensures |r| == |songs| && forall k :: 0 <= k < |songs| ==> r[k] == Entry(songs[k])
  {
    seq(|songs|, k requires 0 <= k < |songs| => Entry(songs[k]))
  }

  /** Non-increasing in similarity. */
  predicate Sorted(songs: seq<SongElement>)
  {
    forall i, j :: 0 <= i < j < |songs| ==> songs[j].similarity <= songs[i].similarity
  }

  /** Every rank label shows its position plus one. */
  predicate RanksAreIndices(songs: seq<SongElement>)
  {
    forall i :: 0 <= i < |songs| ==> songs[i].rank == i + 1
  }

  /** The scan of `add_song`: the number of leading songs whose similarity is
      at least the new one; the scan stops at the first smaller one. */
  function InsertPos(songs: seq<SongElement>, similarity: real): (p: nat)
    ensures p <= |songs|
    ensures forall k :: 0 <= k < p ==> similarity <= songs[k].similarity
    ensures p < |songs| ==> songs[p].similarity < similarity
  {
    if songs == [] then 0
    else if similarity <= songs[0].similarity then 1 + InsertPos(songs[1..], similarity)
    else 0
  }

  /** `songs.insert(insert_pos, new_song)` with the new song labelled
      `insert_pos + 1`. */
  function Inserted(songs: seq<SongElement>, name: string, wavFile: string, similarity: real): (r: seq<SongElement>)
    ensures |r| == |songs| + 1
  {
    var p := InsertPos(songs, similarity);
    songs[..p] + [SongElement(name, wavFile, similarity, p + 1)] + songs[p..]
  }

  /** The list after `add_song`: inserted, and every song after the new one
      relabelled with its position plus one. */
  function AfterAdd(songs: seq<SongElement>, name: string, wavFile: string, similarity: real): (r: seq<SongElement>)
    ensures |r| == |songs| + 1
  {
    var p := InsertPos(songs, similarity);
    var ins := Inserted(songs, name, wavFile, similarity);
    seq(|ins|, i requires 0 <= i < |ins| => if i <= p then ins[i] else ins[i].(rank := i + 1))
  }

  /** The position the scan finds is the only one with every song before it
      at least as similar and the song at it (if any) strictly less similar. */
  lemma {:induction false} InsertPosUnique(songs: seq<SongElement>, similarity: real, p: nat)
    requires p <= |songs|
    requires forall k :: 0 <= k < p ==> similarity <= songs[k].similarity
    requires p < |songs| ==> songs[p].similarity < similarity
    ensures p == InsertPos(songs, similarity)
  {
    if songs != [] && p > 0 {
      assert similarity <= songs[0].similarity;
      InsertPosUnique(songs[1..], similarity, p - 1);
    }
  }

  /** On a sorted list the scan splits the songs exactly: those before the
      new song are at least as similar, those after strictly less. So a new
      song goes after every song of equal similarity. */
  lemma TiesGoAfter(songs: seq<SongElement>, similarity: real)
    requires Sorted(songs)
    ensures var p := InsertPos(songs, similarity);
      forall k :: 0 <= k < |songs| ==> (k < p <==> similarity <= songs[k].similarity)
  {
    var p := InsertPos(songs, similarity);
    forall k | p <= k < |songs| ensures songs[k].similarity < similarity {
      assert songs[k].similarity <= songs[p].similarity;
    }
  }

  /** The new song sits at the scan position with rank `insert_pos + 1`, the
      songs before it are untouched, and the songs after it are the old ones
      from the scan position on, relabelled with their new position plus one. */
  lemma AfterAddShape(songs: seq<SongElement>, name: string, wavFile: string, similarity: real)
    ensures var p := InsertPos(songs, similarity);
      var r := AfterAdd(songs, name, wavFile, similarity);
      r[p] == SongElement(name, wavFile, similarity, p + 1) &&
      r[..p] == songs[..p] &&
      (forall i :: p < i < |r| ==> r[i] == songs[i - 1].(rank := i + 1))
  {
  }

  /** The list grows by one and, with the new song taken out, the old songs
      are there in their old order (only rank labels change). */
  lemma AddKeepsOrder(songs: seq<SongElement>, name: string, wavFile: string, similarity: real)
    ensures var p := InsertPos(songs, similarity);
      var r := AfterAdd(songs, name, wavFile, similarity);
      |r| == |songs| + 1 && Entries(r[..p] + r[p + 1..]) == Entries(songs)
  {
    var p := InsertPos(songs, similarity);
    var r := AfterAdd(songs, name, wavFile, similarity);
    AfterAddShape(songs, name, wavFile, similarity);
    var rest := r[..p] + r[p + 1..];
    forall k | 0 <= k < |songs| ensures Entry(rest[k]) == Entry(songs[k]) {
      if k < p {
        assert rest[k] == r[k];
      } else {
        assert rest[k] == r[k + 1];
      }
    }
  }

  /** A sorted list stays sorted. */
  lemma AddKeepsSorted(songs: seq<SongElement>, name: string, wavFile: string, similarity: real)
    requires Sorted(songs)
    ensures Sorted(AfterAdd(songs, name, wavFile, similarity))
  {
    var p := InsertPos(songs, similarity);
    var r := AfterAdd(songs, name, wavFile, similarity);
    AfterAddShape(songs, name, wavFile, similarity);
    TiesGoAfter(songs, similarity);
    forall i, j | 0 <= i < j < |r| ensures r[j].similarity <= r[i].similarity {
      if j < p {
        assert r[i] == songs[i] && r[j] == songs[j];
      } else if j == p {
        assert r[i] == songs[i];
      } else if i < p {
        assert r[i] == songs[i] && r[j].similarity == songs[j - 1].similarity;
      } else if i == p {
        assert r[j].similarity == songs[j - 1].similarity;
      } else {
        assert r[i].similarity == songs[i - 1].similarity && r[j].similarity == songs[j - 1].similarity;
      }
    }
  }

  /** When every rank label showed its position plus one before, it still
      does after. */
  lemma AddKeepsRanks(songs: seq<SongElement>, name: string, wavFile: string, similarity: real)
    requires RanksAreIndices(songs)
    ensures RanksAreIndices(AfterAdd(songs, name, wavFile, similarity))
  {
    var p := InsertPos(songs, similarity);
    var r := AfterAdd(songs, name, wavFile, similarity);
    AfterAddShape(songs, name, wavFile, similarity);
    forall i | 0 <= i < p ensures r[i].rank == i + 1 {
      assert r[..p][i] == songs[..p][i];
    }
  }

  /** The scroll area's list of song elements. */
  class ScrollableSongList {
    var songs: seq<SongElement>

    /** `__init__` starts with no songs. */
    constructor ()
      ensures songs == []
    {
      songs := [];
    }

    /** `add_song(song_name, wav_file, similarity)`. */
    method AddSong(name: string, wavFile: string, similarity: real)
      modifies this
      ensures songs == AfterAdd(old(songs), name, wavFile, similarity)
    {
      var insertPos := 0;
      while insertPos < |songs|
        invariant insertPos <= |songs|
        invariant forall k :: 0 <= k < insertPos ==> similarity <= songs[k].similarity
      {
        if similarity <= songs[insertPos].similarity {
          insertPos := insertPos + 1;
        } else {
          break;
        }
      }
      InsertPosUnique(songs, similarity, insertPos);
      ghost var ins := Inserted(songs, name, wavFile, similarity);
      var newSong := SongElement(name, wavFile, similarity, insertPos + 1);
      songs := songs[..insertPos] + [newSong] + songs[insertPos..];
      assert songs == ins;
      for i := insertPos + 1 to |songs|
        invariant |songs| == |ins|
        invariant forall m :: 0 <= m < |songs| ==>
          songs[m] == if insertPos < m < i then ins[m].(rank := m + 1) else ins[m]
      {
        songs := songs[i := songs[i].(rank := i + 1)];
      }
    }
  }

  const SongPath := "Task 5 Data/original data/songs/wen_elkhael[music+vocals].wav"
  const MusicPath := "Task 5 Data/original data/music/wen_elkhael [music].wav"

  function Song1(rank: int): SongElement { SongElement("Song 1", SongPath, 95.5, rank) }
  function Song2(rank: int): SongElement { SongElement("Song 2", MusicPath, 87.3, rank) }
  function Song3(rank: int): SongElement { SongElement("Song 3", MusicPath, 82.1, rank) }

  /** The first round of the demo window's insertions fills an empty list. */
  lemma DemoFirstRound()
    ensures AfterAdd(AfterAdd(AfterAdd([], "Song 1", SongPath, 95.5), "Song 2", MusicPath, 87.3), "Song 3", MusicPath, 82.1)
      == [Song1(1), Song2(2), Song3(3)]
  {
    var s0: seq<SongElement> := [];
    var s1 := AfterAdd(s0, "Song 1", SongPath, 95.5);
    assert s1 == [Song1(1)];
    var s2 := AfterAdd(s1, "Song 2", MusicPath, 87.3);
    InsertPosUnique(s1, 87.3, 1);
    assert s2 == [Song1(1), Song2(2)];
    InsertPosUnique(s2, 82.1, 2);
  }

  /** The second round puts each song after its earlier copy. */
  lemma DemoSecondRound()
    ensures AfterAdd(AfterAdd(AfterAdd([Song1(1), Song2(2), Song3(3)], "Song 1", SongPath, 95.5), "Song 2", MusicPath, 87.3), "Song 3", MusicPath, 82.1)
      == [Song1(1), Song1(2), Song2(3), Song2(4), Song3(5), Song3(6)]
  {
    var s3 := [Song1(1), Song2(2), Song3(3)];
    var s4 := AfterAdd(s3, "Song 1", SongPath, 95.5);
    InsertPosUnique(s3, 95.5, 1);
    assert s4 == [Song1(1), Song1(2), Song2(3), Song3(4)];
    var s5 := AfterAdd(s4, "Song 2", MusicPath, 87.3);
    InsertPosUnique(s4, 87.3, 3);
    assert s5 == [Song1(1), Song1(2), Song2(3), Song2(4), Song3(5)];
    InsertPosUnique(s5, 82.1, 5);
  }

  /** The third round completes three copies of each. */
  lemma DemoThirdRound()
    ensures AfterAdd(AfterAdd(AfterAdd([Song1(1), Song1(2), Song2(3), Song2(4), Song3(5), Song3(6)], "Song 1", SongPath, 95.5), "Song 2", MusicPath, 87.3), "Song 3", MusicPath, 82.1)
      == [Song1(1), Song1(2), Song1(3), Song2(4), Song2(5), Song2(6), Song3(7), Song3(8), Song3(9)]
  {
    var s6 := [Song1(1), Song1(2), Song2(3), Song2(4), Song3(5), Song3(6)];
    var s7 := AfterAdd(s6, "Song 1", SongPath, 95.5);
    InsertPosUnique(s6, 95.5, 2);
    assert s7 == [Song1(1), Song1(2), Song1(3), Song2(4), Song2(5), Song3(6), Song3(7)];
    var s8 := AfterAdd(s7, "Song 2", MusicPath, 87.3);
    InsertPosUnique(s7, 87.3, 5);
    assert s8 == [Song1(1), Song1(2), Song1(3), Song2(4), Song2(5), Song2(6), Song3(7), Song3(8)];
    InsertPosUnique(s8, 82.1, 8);
  }

  /** The nine example insertions of the demo window: 95.5, 87.3 and 82.1,
      three times over, end as three 95.5s, three 87.3s and three 82.1s in
      insertion order, ranked 1 to 9. */
  lemma DemoList()
    ensures var s1 := AfterAdd([], "Song 1", SongPath, 95.5);
      var s2 := AfterAdd(s1, "Song 2", MusicPath, 87.3);
      var s3 := AfterAdd(s2, "Song 3", MusicPath, 82.1);
      var s4 := AfterAdd(s3, "Song 1", SongPath, 95.5);
      var s5 := AfterAdd(s4, "Song 2", MusicPath, 87.3);
      var s6 := AfterAdd(s5, "Song 3", MusicPath, 82.1);
      var s7 := AfterAdd(s6, "Song 1", SongPath, 95.5);
      var s8 := AfterAdd(s7, "Song 2", MusicPath, 87.3);
      var s9 := AfterAdd(s8, "Song 3", MusicPath, 82.1);
      s9 == [Song1(1), Song1(2), Song1(3), Song2(4), Song2(5), Song2(6), Song3(7), Song3(8), Song3(9)]
  {
    DemoFirstRound();
    DemoSecondRound();
    DemoThirdRound();
  }
}
