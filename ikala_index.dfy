/**
 * `scripts/make_ikala_index.py`: list iKala's lyrics files to find the track
 * ids, make sure the id-mapping file is on disk (fetching it only when it is
 * missing), read the singer of each song from it, and build one record per
 * track with the path and checksum of its three data files.
 *
 * `glob.glob`, the network and `csv.reader(fhandle, delimiter='\t')` are
 * parameters; the index is returned rather than written as JSON.
 */
module IkalaIndex {
  import opened Wrappers
  import opened Text
  import opened Paths
  import opened Storage

  /** `glob.glob(pattern)`: the matching paths, in whatever order the directory lists them. */
  type Glob = string -> seq<string>

  /** What `make_ikala_index` can raise. */
  datatype IkalaError =
    | IndexError
    | KeyError(key: string)
    | Io(error: IoError)

  /** The record `ikala_index[key]`. */
  datatype IkalaTrack = IkalaTrack(
    audio: DataFile,
    pitch: DataFile,
    lyrics: DataFile,
    singerId: string,
    songId: string,
    section: string)

  const IdMappingUrl: string := "http://mac.citi.sinica.edu.tw/ikala/id_mapping.txt"

  /** `os.path.join(os.path.join(ikala_data_path, "Lyrics"), "*.lab")`. */
  function LyricsPattern(dataPath: string): string {
    Join(Join(dataPath, "Lyrics"), "*.lab")
  }

  /** `os.path.join(ikala_data_path, "id_mapping.txt")`. */
  function IdMapPath(dataPath: string): string {
    Join(dataPath, "id_mapping.txt")
  }

  // ---------------------------------------------------------------------------
  // The track ids

  /** `os.path.basename(f).split('.')[0]`. */
  function Stem(file: string): string {
    FirstPiece(Basename(file), '.')
  }

  /** `[os.path.basename(f).split('.')[0] for f in lyrics_files]`. */
  function Stems(files: seq<string>): (r: seq<string>)
    ensures |r| == |files|
    ensures forall i :: 0 <= i < |files| ==> r[i] == Stem(files[i])
  {
    MapSeqAt(Stem, files);
    MapSeq(Stem, files)
  }

  /** `track_ids`: the stems of the listed files, sorted. */
  function TrackIds(files: seq<string>): seq<string> {
    SortStrings(Stems(files))
  }

  /**
   * The track ids are in ascending order and are the stems of the listed
   * files, each as often as it occurs; none holds a `'.'` or a `'/'`.
   */
  lemma TrackIdsSpec(files: seq<string>)
    ensures Sorted(TrackIds(files))
    ensures multiset(TrackIds(files)) == multiset(Stems(files))
    ensures forall id :: id in TrackIds(files) ==> '.' !in id && '/' !in id
  {
    var ids := TrackIds(files);
    forall id | id in ids
      ensures '.' !in id && '/' !in id
    {
      assert id in multiset(Stems(files));
      var i :| 0 <= i < |files| && Stems(files)[i] == id;
      var base := Basename(files[i]);
      assert id <= base && '/' !in base;
      assert forall k :: 0 <= k < |id| ==> id[k] == base[k];
    }
  }

  /** `glob` lists files in no particular order; the track ids do not depend on that order. */
  lemma TrackIdsOrderFree(files1: seq<string>, files2: seq<string>)
    requires multiset(files1) == multiset(files2)
    ensures TrackIds(files1) == TrackIds(files2)
  {
    MapPermutation(Stem, files1, files2);
    SortOrderFree(Stems(files1), Stems(files2));
  }

  // ---------------------------------------------------------------------------
  // The id mapping

  /**
   * Lines 40-42: the mapping file is fetched only when nothing exists at its
   * path; the state afterwards, or the error the fetch raises.
   */
  function FetchIdMapping(fs: Fs, fetch: Fetch, dataPath: string): (r: Result<Fs, IoError>)
    ensures fs.Exists(IdMapPath(dataPath)) ==> r == Ok(fs)
    ensures !fs.Exists(IdMapPath(dataPath)) ==> r == Retrieve(fs, fetch, IdMappingUrl, IdMapPath(dataPath))
  {
    if fs.Exists(IdMapPath(dataPath)) then Ok(fs)
    else Retrieve(fs, fetch, IdMappingUrl, IdMapPath(dataPath))
  }

  /** Once the mapping file is present, the network is not consulted and the disk is left as it is. */
  lemma IdMappingNotRefetched(fs: Fs, fetch1: Fetch, fetch2: Fetch, dataPath: string)
    requires FetchIdMapping(fs, fetch1, dataPath).Ok?
    ensures var fs' := FetchIdMapping(fs, fetch1, dataPath).value;
      && fs'.Exists(IdMapPath(dataPath))
      && FetchIdMapping(fs', fetch2, dataPath) == Ok(fs')
  {
  }

  /** The mapping is fetched on the disk, when absent. */
  method EnsureIdMapping(disk: Disk, fetch: Fetch, dataPath: string) returns (r: Result<(), IoError>)
    modifies disk
    ensures var spec := FetchIdMapping(old(disk.State()), fetch, dataPath);
      && r.Ok? == spec.Ok?
      && (spec.Ok? ==> disk.State() == spec.value)
      && (spec.Err? ==> disk.State() == old(disk.State()) && r.error == spec.error)
  {
    var idMapPath := IdMapPath(dataPath);
    if !disk.State().Exists(idMapPath) {
      r := disk.UrlRetrieve(fetch, IdMappingUrl, idMapPath);
    } else {
      r := Ok(());
    }
  }

  // ---------------------------------------------------------------------------
  // The singer map

  /** A mapping row is read without raising: it has a first field, and a second unless it is the header. */
  predicate MappingRowReadable(line: Row) {
    |line| > 0 && (line[0] == "singer" || |line| >= 2)
  }

  /** A row that maps a song to its singer: one not headed `'singer'`. */
  predicate MapsSong(line: Row) {
    |line| >= 2 && line[0] != "singer"
  }

  /**
   * Lines 46-50: `singer_map[line[1]] = line[0]` for every row but the
   * header, in order, or the `IndexError` of the first row too short to read.
   */
  function SingerMap(rows: seq<Row>): Result<map<string, string>, IkalaError>
  {
    if |rows| == 0 then Ok(map[])
    else
      var line := rows[|rows| - 1];
      match SingerMap(rows[..|rows| - 1])
      case Err(e) => Err(e)
      case Ok(m) =>
        if |line| == 0 then Err(IndexError)
        else if line[0] == "singer" then Ok(m)
        else if |line| < 2 then Err(IndexError)
        else Ok(m[line[1] := line[0]])
  }

  /** The map is built exactly when every row is readable; otherwise the loop raises `IndexError`. */
  lemma {:induction false} SingerMapOk(rows: seq<Row>)
    ensures SingerMap(rows).Ok? <==> forall i :: 0 <= i < |rows| ==> MappingRowReadable(rows[i])
    ensures SingerMap(rows).Err? ==> SingerMap(rows).error == IndexError
  {
    if |rows| > 0 {
      var init := rows[..|rows| - 1];
      SingerMapOk(init);
      assert forall i :: 0 <= i < |init| ==> init[i] == rows[i];
    }
  }

  /** The songs of the map are exactly the second fields of the rows other than the header. */
  lemma {:induction false} SingerMapKeys(rows: seq<Row>)
    requires SingerMap(rows).Ok?
    ensures forall song :: song in SingerMap(rows).value <==>
      exists i :: 0 <= i < |rows| && MapsSong(rows[i]) && rows[i][1] == song
  {
    if |rows| > 0 {
      var init := rows[..|rows| - 1];
      SingerMapKeys(init);
      assert forall i :: 0 <= i < |init| ==> init[i] == rows[i];
      var line := rows[|rows| - 1];
      forall song | exists i :: 0 <= i < |rows| && MapsSong(rows[i]) && rows[i][1] == song
        ensures song in SingerMap(rows).value
      {
        var i :| 0 <= i < |rows| && MapsSong(rows[i]) && rows[i][1] == song;
        if i < |init| {
          assert MapsSong(init[i]) && init[i][1] == song;
        }
      }
    }
  }

  /** A later row for the same song overrides an earlier one: each song maps to the singer of its last row. */
  lemma {:induction false} SingerMapLastWins(rows: seq<Row>, i: nat)
    requires SingerMap(rows).Ok?
    requires i < |rows| && MapsSong(rows[i])
    requires forall j :: i < j < |rows| && MapsSong(rows[j]) ==> rows[j][1] != rows[i][1]
    ensures rows[i][1] in SingerMap(rows).value
    ensures SingerMap(rows).value[rows[i][1]] == rows[i][0]
  {
    if i < |rows| - 1 {
      var init := rows[..|rows| - 1];
      assert forall k :: 0 <= k < |init| ==> init[k] == rows[k];
      SingerMapLastWins(init, i);
    }
  }

  lemma {:induction false} SingerMapErrPersists(rows: seq<Row>, n: nat)
    requires n <= |rows| && SingerMap(rows[..n]).Err?
    ensures SingerMap(rows) == SingerMap(rows[..n])
    decreases |rows|
  {
    if n == |rows| {
      assert rows[..n] == rows;
    } else {
      var init := rows[..|rows| - 1];
      assert init[..n] == rows[..n];
      SingerMapErrPersists(init, n);
    }
  }

  /** The loop of lines 46-50. */
  method ReadSingerMap(rows: seq<Row>) returns (r: Result<map<string, string>, IkalaError>)
    ensures r == SingerMap(rows)
  {
    var singerMap: map<string, string> := map[];
    var i := 0;
    while i < |rows|
      invariant 0 <= i <= |rows|
      invariant SingerMap(rows[..i]) == Ok(singerMap)
    {
      var line := rows[i];
      assert rows[..i + 1][..i] == rows[..i];
      if |line| == 0 || (line[0] != "singer" && |line| < 2) {
        SingerMapErrPersists(rows, i + 1);
        return Err(IndexError);
      }
      if line[0] != "singer" {
        singerMap := singerMap[line[1] := line[0]];
      }
      i := i + 1;
    }
    assert rows[..|rows|] == rows;
    r := Ok(singerMap);
  }

  // ---------------------------------------------------------------------------
  // One record

  /** `os.path.join(ikala_data_path, "Wavfile/<key>.wav")` and its two siblings: what is hashed. */
  function AudioFile(dataPath: string, key: string): string {
    Join(dataPath, "Wavfile/" + key + ".wav")
  }

  function PitchFile(dataPath: string, key: string): string {
    Join(dataPath, "PitchLabel/" + key + ".pv")
  }

  function LyricsFile(dataPath: string, key: string): string {
    Join(dataPath, "Lyrics/" + key + ".lab")
  }

  /** The three files a record hashes exist. */
  predicate DataFilesPresent(fs: Fs, dataPath: string, key: string) {
    && AudioFile(dataPath, key) in fs.files
    && PitchFile(dataPath, key) in fs.files
    && LyricsFile(dataPath, key) in fs.files
  }

  /** Lines 55-60: the three digests, in order; the first missing file raises. */
  function Checksums(fs: Fs, hash: Hash, dataPath: string, key: string): (r: Result<seq<string>, IkalaError>)
    ensures r.Ok? <==> DataFilesPresent(fs, dataPath, key)
    ensures r.Ok? ==> r.value == [hash(fs.files[AudioFile(dataPath, key)]),
                                  hash(fs.files[PitchFile(dataPath, key)]),
                                  hash(fs.files[LyricsFile(dataPath, key)])]
  {
    match FileMd5(fs, hash, AudioFile(dataPath, key))
    case Err(e) => Err(Io(e))
    case Ok(audio) =>
      match FileMd5(fs, hash, PitchFile(dataPath, key))
      case Err(e) => Err(Io(e))
      case Ok(pitch) =>
        match FileMd5(fs, hash, LyricsFile(dataPath, key))
        case Err(e) => Err(Io(e))
        case Ok(lyrics) => Ok([audio, pitch, lyrics])
  }

  /**
   * The record built for one key, or what building it raises, in the order
   * the loop body evaluates: the three checksums, `singer_map[songid]`, then
   * `key.split('_')[1]`.
   */
  function KeyRecord(fs: Fs, hash: Hash, dataPath: string, singers: map<string, string>, key: string)
    : Result<IkalaTrack, IkalaError>
  {
    var songId := FirstPiece(key, '_');
    match Checksums(fs, hash, dataPath, key)
    case Err(e) => Err(e)
    case Ok(sums) =>
      if songId !in singers then Err(KeyError(songId))
      else
        var pieces := Split(key, '_');
        if |pieces| < 2 then Err(IndexError)
        else
          Ok(IkalaTrack(
            DataFile("iKala/Wavfile/" + key + ".wav", sums[0]),
            DataFile("iKala/PitchLabel/" + key + ".pv", sums[1]),
            DataFile("iKala/Lyrics/" + key + ".lab", sums[2]),
            singers[songId], songId, pieces[1]))
  }

  /**
   * A key builds exactly when its three data files exist, its song is in the
   * singer map, and it holds a `'_'`. A missing song raises `KeyError` with
   * the song id; a key without `'_'` whose files and song are found raises
   * `IndexError`.
   */
  lemma KeyRecordOk(fs: Fs, hash: Hash, dataPath: string, singers: map<string, string>, key: string)
    ensures KeyRecord(fs, hash, dataPath, singers, key).Ok? <==>
      DataFilesPresent(fs, dataPath, key) && FirstPiece(key, '_') in singers && '_' in key
    ensures DataFilesPresent(fs, dataPath, key) && FirstPiece(key, '_') !in singers ==>
      KeyRecord(fs, hash, dataPath, singers, key) == Err(KeyError(FirstPiece(key, '_')))
    ensures DataFilesPresent(fs, dataPath, key) && FirstPiece(key, '_') in singers && '_' !in key ==>
      KeyRecord(fs, hash, dataPath, singers, key) == Err(IndexError)
  {
    SplitCount(key, '_');
  }

  /**
   * The fields of a built record: the paths under `iKala/` with the digests
   * of the files under the data path, the song id before the first `'_'`,
   * its singer, and the second `'_'` piece as the section.
   */
  lemma KeyRecordFields(fs: Fs, hash: Hash, dataPath: string, singers: map<string, string>, key: string)
    requires KeyRecord(fs, hash, dataPath, singers, key).Ok?
    ensures var t := KeyRecord(fs, hash, dataPath, singers, key).value;
      && t.audio == DataFile("iKala/Wavfile/" + key + ".wav", hash(fs.files[AudioFile(dataPath, key)]))
      && t.pitch == DataFile("iKala/PitchLabel/" + key + ".pv", hash(fs.files[PitchFile(dataPath, key)]))
      && t.lyrics == DataFile("iKala/Lyrics/" + key + ".lab", hash(fs.files[LyricsFile(dataPath, key)]))
      && t.songId == FirstPiece(key, '_') && '_' !in t.songId && t.songId <= key
      && t.songId in singers && t.singerId == singers[t.songId]
      && t.section == Split(key, '_')[1] && '_' !in t.section
  {
  }

  // ---------------------------------------------------------------------------
  // The whole index

  /** How one key becomes its record, or what building it raises. */
  type KeyBuilder = string -> Result<IkalaTrack, IkalaError>

  /** The record builder of the loop, for the disk, data path and singer map given. */
  function KeyBuilderOf(fs: Fs, hash: Hash, dataPath: string, singers: map<string, string>): KeyBuilder
  {
    (key: string) => KeyRecord(fs, hash, dataPath, singers, key)
  }

  /** `build` agrees with `KeyRecord` on every key. */
  ghost predicate BuildsKeys(build: KeyBuilder, fs: Fs, hash: Hash, dataPath: string, singers: map<string, string>)
  {
    forall key: string {:trigger KeyRecord(fs, hash, dataPath, singers, key)} ::
      build(key) == KeyRecord(fs, hash, dataPath, singers, key)
  }

  lemma KeyBuilderBuildsKeys(fs: Fs, hash: Hash, dataPath: string, singers: map<string, string>)
    ensures BuildsKeys(KeyBuilderOf(fs, hash, dataPath, singers), fs, hash, dataPath, singers)
  {
  }

  /**
   * Lines 52-80: `ikala_index[key] = build(key)` for each key in order; the
   * first key that fails raises.
   */
  function Entries(build: KeyBuilder, keys: seq<string>): Result<map<string, IkalaTrack>, IkalaError>
  {
    if |keys| == 0 then Ok(map[])
    else
      var key := keys[|keys| - 1];
      match Entries(build, keys[..|keys| - 1])
      case Err(e) => Err(e)
      case Ok(m) =>
        match build(key)
        case Err(e) => Err(e)
        case Ok(t) => Ok(m[key := t])
  }

  /**
   * The index is built exactly when every key builds; it then has exactly the
   * keys given, each holding its own record.
   */
  lemma {:induction false} EntriesOk(build: KeyBuilder, keys: seq<string>)
    ensures Entries(build, keys).Ok? <==> forall i :: 0 <= i < |keys| ==> build(keys[i]).Ok?
    ensures Entries(build, keys).Ok? ==>
      && (forall k :: k in Entries(build, keys).value <==> k in keys)
      && (forall k :: k in keys ==> Entries(build, keys).value[k] == build(k).value)
  {
    if |keys| > 0 {
      var init := keys[..|keys| - 1];
      EntriesOk(build, init);
      assert keys == init + [keys[|keys| - 1]];
    }
  }

  /** When the loop raises, it raises the error of the first key that fails. */
  lemma {:induction false} EntriesFirstError(build: KeyBuilder, keys: seq<string>)
    requires Entries(build, keys).Err?
    ensures exists i :: (0 <= i < |keys| && build(keys[i]).Err?
      && Entries(build, keys).error == build(keys[i]).error
      && (forall j :: 0 <= j < i ==> build(keys[j]).Ok?))
  {
    var init := keys[..|keys| - 1];
    assert forall j :: 0 <= j < |init| ==> init[j] == keys[j];
    if Entries(build, init).Err? {
      EntriesFirstError(build, init);
      var i :| 0 <= i < |init| && build(init[i]).Err?
        && Entries(build, init).error == build(init[i]).error
        && (forall j :: 0 <= j < i ==> build(init[j]).Ok?);
      assert build(keys[i]).Err?;
    } else {
      EntriesOk(build, init);
      var i := |keys| - 1;
      assert build(keys[i]).Err?;
    }
  }

  lemma {:induction false} EntriesErrPersists(build: KeyBuilder, keys: seq<string>, n: nat)
    requires n <= |keys| && Entries(build, keys[..n]).Err?
    ensures Entries(build, keys) == Entries(build, keys[..n])
    decreases |keys|
  {
    if n == |keys| {
      assert keys[..n] == keys;
    } else {
      var init := keys[..|keys| - 1];
      assert init[..n] == keys[..n];
      EntriesErrPersists(build, init, n);
    }
  }

  /** One step of the loop: extend by the next key, or stop with its error. */
  lemma EntriesStep(build: KeyBuilder, keys: seq<string>, j: nat, index: map<string, IkalaTrack>)
    requires j < |keys| && Entries(build, keys[..j]) == Ok(index)
    ensures build(keys[j]).Ok? ==> Entries(build, keys[..j + 1]) == Ok(index[keys[j] := build(keys[j]).value])
    ensures build(keys[j]).Err? ==> Entries(build, keys) == Err(build(keys[j]).error)
  {
    assert keys[..j + 1][..j] == keys[..j];
    if build(keys[j]).Err? {
      EntriesErrPersists(build, keys, j + 1);
    }
  }

  /**
   * `make_ikala_index(ikala_data_path)`: the index, or what the call raises,
   * and the disk afterwards (which holds the mapping file if it was fetched).
   * The keys are the track ids in sorted order, each once.
   */
  function IkalaIndexOf(fs: Fs, fetch: Fetch, hash: Hash, glob: Glob, csv: CsvReader, dataPath: string)
    : (r: (Result<map<string, IkalaTrack>, IkalaError>, Fs))
    ensures FetchIdMapping(fs, fetch, dataPath).Err? ==> r == (Err(Io(FetchIdMapping(fs, fetch, dataPath).error)), fs)
    ensures FetchIdMapping(fs, fetch, dataPath).Ok? ==> r.1 == FetchIdMapping(fs, fetch, dataPath).value
  {
    var keys := Dedupe(TrackIds(glob(LyricsPattern(dataPath))));
    match FetchIdMapping(fs, fetch, dataPath)
    case Err(e) => (Err(Io(e)), fs)
    case Ok(fs') =>
      match Read(fs', IdMapPath(dataPath))
      case Err(e) => (Err(Io(e)), fs')
      case Ok(bytes) =>
        match SingerMap(csv(bytes))
        case Err(e) => (Err(e), fs')
        case Ok(singers) => (Entries(KeyBuilderOf(fs', hash, dataPath, singers), keys), fs')
  }

  /**
   * The keys of a built index are exactly the track ids, and the record of
   * each is the one `KeyRecord` builds from the disk after the fetch and the
   * singer map read from the mapping file.
   */
  lemma IkalaIndexEntries(fs: Fs, fetch: Fetch, hash: Hash, glob: Glob, csv: CsvReader, dataPath: string)
    requires IkalaIndexOf(fs, fetch, hash, glob, csv, dataPath).0.Ok?
    ensures var (r, fs') := IkalaIndexOf(fs, fetch, hash, glob, csv, dataPath);
      var ids := TrackIds(glob(LyricsPattern(dataPath)));
      && IdMapPath(dataPath) in fs'.files
      && SingerMap(csv(fs'.files[IdMapPath(dataPath)])).Ok?
      && (forall k :: k in r.value <==> k in ids)
      && (forall k :: k in r.value ==>
            KeyRecord(fs', hash, dataPath, SingerMap(csv(fs'.files[IdMapPath(dataPath)])).value, k) == Ok(r.value[k]))
  {
    var fs' := FetchIdMapping(fs, fetch, dataPath).value;
    var singers := SingerMap(csv(fs'.files[IdMapPath(dataPath)])).value;
    var keys := Dedupe(TrackIds(glob(LyricsPattern(dataPath))));
    EntriesOk(KeyBuilderOf(fs', hash, dataPath, singers), keys);
  }

  /** The body of the loop for one key. */
  method MakeKeyRecord(disk: Disk, hash: Hash, dataPath: string, singers: map<string, string>, key: string,
                       ghost build: KeyBuilder)
    returns (r: Result<IkalaTrack, IkalaError>)
    requires BuildsKeys(build, disk.State(), hash, dataPath, singers)
    ensures r == build(key)
  {
    assert build(key) == KeyRecord(disk.State(), hash, dataPath, singers, key);
    var songId := FirstPiece(key, '_');
    var audio := disk.Md5(hash, AudioFile(dataPath, key));
    if audio.Err? {
      return Err(Io(audio.error));
    }
    var pitch := disk.Md5(hash, PitchFile(dataPath, key));
    if pitch.Err? {
      return Err(Io(pitch.error));
    }
    var lyrics := disk.Md5(hash, LyricsFile(dataPath, key));
    if lyrics.Err? {
      return Err(Io(lyrics.error));
    }
    if songId !in singers {
      return Err(KeyError(songId));
    }
    var pieces := Split(key, '_');
    if |pieces| < 2 {
      return Err(IndexError);
    }
    r := Ok(IkalaTrack(
      DataFile("iKala/Wavfile/" + key + ".wav", audio.value),
      DataFile("iKala/PitchLabel/" + key + ".pv", pitch.value),
      DataFile("iKala/Lyrics/" + key + ".lab", lyrics.value),
      singers[songId], songId, pieces[1]));
  }

  /** The loop of lines 53-80 on the disk, over the keys in order. */
  method BuildEntries(disk: Disk, hash: Hash, dataPath: string, singers: map<string, string>, keys: seq<string>,
                      ghost build: KeyBuilder)
    returns (r: Result<map<string, IkalaTrack>, IkalaError>)
    requires BuildsKeys(build, disk.State(), hash, dataPath, singers)
    ensures r == Entries(build, keys)
  {
    var index: map<string, IkalaTrack> := map[];
    var j := 0;
    while j < |keys|
      invariant 0 <= j <= |keys|
      invariant Entries(build, keys[..j]) == Ok(index)
    {
      var record := MakeKeyRecord(disk, hash, dataPath, singers, keys[j], build);
      EntriesStep(build, keys, j, index);
      if record.Err? {
        return Err(record.error);
      }
      index := index[keys[j] := record.value];
      j := j + 1;
    }
    assert keys[..|keys|] == keys;
    r := Ok(index);
  }

  /** `make_ikala_index(ikala_data_path)` on the disk. */
  method MakeIkalaIndex(disk: Disk, fetch: Fetch, hash: Hash, glob: Glob, csv: CsvReader, dataPath: string)
    returns (r: Result<map<string, IkalaTrack>, IkalaError>)
    modifies disk
    ensures (r, disk.State()) == IkalaIndexOf(old(disk.State()), fetch, hash, glob, csv, dataPath)
  {
    var trackIds := TrackIds(glob(LyricsPattern(dataPath)));
    var fetched := EnsureIdMapping(disk, fetch, dataPath);
    if fetched.Err? {
      return Err(Io(fetched.error));
    }
    var idMapPath := IdMapPath(dataPath);
    if idMapPath !in disk.files {
      return Err(Io(if idMapPath in disk.dirs then IsADirectory(idMapPath) else FileNotFound(idMapPath)));
    }
    var singers := ReadSingerMap(csv(disk.files[idMapPath]));
    if singers.Err? {
      return Err(singers.error);
    }
    ghost var build := KeyBuilderOf(disk.State(), hash, dataPath, singers.value);
    KeyBuilderBuildsKeys(disk.State(), hash, dataPath, singers.value);
    r := BuildEntries(disk, hash, dataPath, singers.value, Dedupe(trackIds), build);
  }
}
