/**
 * `scripts/make_orchset_index.py`: turn the rows of Orchset's
 * "Predominant Melodic Instruments" table into the dataset index, one record
 * per track, with the track's metadata and the path and checksum of its three
 * data files.
 *
 * The table's rows are what `csv.reader(fhandle, delimiter=',')` yields for
 * the file's bytes (a parameter, like the digest); the index is returned rather than written as
 * JSON.
 */
module OrchsetIndex {
  import opened Wrappers
  import opened Text
  import opened Paths
  import opened Storage

  /** What `make_orchset_index` can raise. */
  datatype OrchsetError =
    | IndexError
    | KeyError(key: string)
    | Io(error: IoError)

  /** The record `index[track_id]`. */
  datatype OrchsetTrack = OrchsetTrack(
    audioStereo: DataFile,
    audioMono: DataFile,
    melody: DataFile,
    instrumentsRaw: string,
    instrumentsNormalized: seq<string>,
    alternatingMelody: bool,
    containsWinds: bool,
    containsStrings: bool,
    containsBrass: bool,
    onlyStrings: bool,
    onlyWinds: bool,
    onlyBrass: bool,
    composer: string,
    work: string,
    excerpt: string)

  const InstrumentsTable: string := "Orchset - Predominant Melodic Instruments.csv"

  // ---------------------------------------------------------------------------
  // The first loop: drop the header row

  /** The rows the first loop keeps, in order: every row whose first field is not `'excerpt'`. */
  function Kept(rows: seq<Row>): (r: seq<Row>)
    requires forall i :: 0 <= i < |rows| ==> |rows[i]| > 0
    ensures forall i :: 0 <= i < |r| ==> |r[i]| > 0
    ensures |r| <= |rows|
  {
    if |rows| == 0 then []
    else
      var init := rows[..|rows| - 1];
      var last := rows[|rows| - 1];
      assert rows == init + [last];
      Kept(init) + (if last[0] == "excerpt" then [] else [last])
  }

  /** The kept rows are exactly the rows whose first field is not `'excerpt'`. */
  lemma {:induction false} KeptMembers(rows: seq<Row>)
    requires forall i :: 0 <= i < |rows| ==> |rows[i]| > 0
    ensures forall row :: row in Kept(rows) <==> row in rows && row[0] != "excerpt"
  {
    if |rows| > 0 {
      var init := rows[..|rows| - 1];
      var last := rows[|rows| - 1];
      assert rows == init + [last];
      KeptMembers(init);
    }
  }

  /** One step of the first loop: the next row is appended unless it is a header row. */
  lemma KeptSnoc(rows: seq<Row>, row: Row)
    requires forall i :: 0 <= i < |rows| ==> |rows[i]| > 0
    requires |row| > 0
    ensures Kept(rows + [row]) == Kept(rows) + (if row[0] == "excerpt" then [] else [row])
  {
    assert (rows + [row])[..|rows|] == rows;
  }

  /** The first loop over two stretches of rows keeps the rows of each, in order. */
  lemma {:induction false} KeptAppend(a: seq<Row>, b: seq<Row>)
    requires forall i :: 0 <= i < |a| ==> |a[i]| > 0
    requires forall i :: 0 <= i < |b| ==> |b[i]| > 0
    ensures Kept(a + b) == Kept(a) + Kept(b)
  {
    if |b| == 0 {
      assert a + b == a;
    } else {
      var init := b[..|b| - 1];
      var last := b[|b| - 1];
      assert b == init + [last];
      assert a + b == (a + init) + [last];
      KeptAppend(a, init);
      KeptSnoc(a + init, last);
      KeptSnoc(init, last);
    }
  }

  /**
   * `raw_data`: the first loop reads `line[0]` of every row, so an empty row
   * (a blank line of the file) raises `IndexError`; otherwise the header rows
   * are dropped.
   */
  function DataRows(rows: seq<Row>): (r: Result<seq<Row>, OrchsetError>)
    ensures r.Ok? <==> forall i :: 0 <= i < |rows| ==> |rows[i]| > 0
    ensures r.Err? ==> r.error == IndexError
    ensures r.Ok? ==> forall i :: 0 <= i < |r.value| ==> |r.value[i]| > 0
  {
    if forall i :: 0 <= i < |rows| ==> |rows[i]| > 0 then Ok(Kept(rows)) else Err(IndexError)
  }

  // ---------------------------------------------------------------------------
  // The pieces of a track id

  /** `track_id = line[0].split('.')[0]`. */
  function TrackId(field: string): (r: string)
    ensures '.' !in r && r <= field
    ensures '.' in field ==> field[|r|] == '.'
    ensures '.' !in field ==> r == field
  {
    FirstPiece(field, '.')
  }

  /** `track_id.split('.')[0]` at line 49 gives the track id back: that split is a no-op. */
  lemma TrackIdResplit(field: string)
    ensures FirstPiece(TrackId(field), '.') == TrackId(field)
  {
    FirstPieceResplit(field, '.');
  }

  /** The composers whose names contain a `'-'`, whose first two pieces belong together. */
  predicate MergesComposer(piece: string) {
    piece == "Musorgski" || piece == "Rimski"
  }

  /**
   * `id_split`: the `'-'` pieces of the id, with the first two merged back for
   * `Musorgski-…` and `Rimski-…`; `pop(1)` raises `IndexError` when such an id
   * has no second piece. The pieces, joined with `'-'`, give the id back.
   */
  function IdSplit(trackId: string): (r: Result<seq<string>, OrchsetError>)
    requires '.' !in trackId
    ensures r.Ok? <==> !(MergesComposer(FirstPiece(trackId, '-')) && '-' !in trackId)
    ensures r.Err? ==> r.error == IndexError
    ensures r.Ok? ==> |r.value| >= 1 && JoinWith(r.value, '-') == trackId
    ensures var parts := Split(trackId, '-');
      r.Ok? && !MergesComposer(parts[0]) ==> r.value == parts
    ensures var parts := Split(trackId, '-');
      r.Ok? && MergesComposer(parts[0]) ==> |parts| >= 2 && r.value == [parts[0] + "-" + parts[1]] + parts[2..]
  {
    var parts := Split(FirstPiece(trackId, '.'), '-');
    SplitCount(trackId, '-');
    JoinSplit(trackId, '-');
    if MergesComposer(parts[0]) then
      if |parts| < 2 then Err(IndexError)
      else
        assert parts == [parts[0], parts[1]] + parts[2..];
        JoinMergeFirst(parts[0], parts[1], parts[2..], '-');
        Ok([parts[0] + "-" + parts[1]] + parts[2..])
    else Ok(parts)
  }

  /** Merging the first two pieces with the separator does not change the joined string. */
  lemma JoinMergeFirst(a: string, b: string, rest: seq<string>, sep: char)
    ensures JoinWith([a + [sep] + b] + rest, sep) == JoinWith([a, b] + rest, sep)
  {
    if |rest| == 0 {
      assert [a, b] + rest == [a] + [b];
      JoinCons(a, [b], sep);
    } else {
      assert [a, b] + rest == [a] + ([b] + rest);
      JoinCons(a + [sep] + b, rest, sep);
      JoinCons(a, [b] + rest, sep);
      JoinCons(b, rest, sep);
    }
  }

  /** `id_split[0]`: the composer. */
  function Composer(parts: seq<string>): string
    requires |parts| >= 1
  {
    parts[0]
  }

  /** `'-'.join(id_split[1:-1])`: the pieces between the first and the last (none when there are fewer than three). */
  function Work(parts: seq<string>): string
    requires |parts| >= 1
  {
    if |parts| < 2 then "" else JoinWith(parts[1..|parts| - 1], '-')
  }

  /** `id_split[-1][2:]`: the last piece without its first two characters ("" when it is shorter). */
  function Excerpt(parts: seq<string>): string
    requires |parts| >= 1
  {
    var last := parts[|parts| - 1];
    if |last| < 2 then "" else last[2..]
  }

  /** The composer is the first `'-'` piece of the id, or the first two joined for the merging composers. */
  lemma ComposerOfId(trackId: string)
    requires '.' !in trackId
    requires IdSplit(trackId).Ok?
    ensures var parts := IdSplit(trackId).value; var pieces := Split(trackId, '-');
      !MergesComposer(pieces[0]) ==> Composer(parts) == pieces[0] == FirstPiece(trackId, '-')
    ensures var parts := IdSplit(trackId).value; var pieces := Split(trackId, '-');
      MergesComposer(pieces[0]) ==> |pieces| >= 2 && Composer(parts) == pieces[0] + "-" + pieces[1]
  {
  }

  /**
   * The composer, the work and the last piece rebuild the id they came from:
   * for an id of at least three pieces, `composer-work-last` is the id, and
   * the composer is the first `'-'` piece of the id, or the first two for the
   * merging composers.
   */
  lemma ComposerWorkRebuild(trackId: string)
    requires '.' !in trackId
    requires IdSplit(trackId).Ok? && |IdSplit(trackId).value| >= 3
    ensures var parts := IdSplit(trackId).value;
      Composer(parts) + "-" + Work(parts) + "-" + parts[|parts| - 1] == trackId
    ensures var parts := IdSplit(trackId).value; var pieces := Split(trackId, '-');
      !MergesComposer(pieces[0]) ==> Composer(parts) == pieces[0] == FirstPiece(trackId, '-')
    ensures var parts := IdSplit(trackId).value; var pieces := Split(trackId, '-');
      MergesComposer(pieces[0]) ==> |pieces| >= 2 && Composer(parts) == pieces[0] + "-" + pieces[1]
  {
    var parts := IdSplit(trackId).value;
    assert Composer(parts) + "-" + Work(parts) + "-" + parts[|parts| - 1] == trackId by {
      JoinPieces(parts);
    }
    ComposerOfId(trackId);
  }

  /** With three pieces or more, composer, work and last piece joined with `'-'` are all the pieces joined. */
  lemma JoinPieces(parts: seq<string>)
    requires |parts| >= 3
    ensures Composer(parts) + "-" + Work(parts) + "-" + parts[|parts| - 1] == JoinWith(parts, '-')
  {
    JoinWithLast(parts, '-');
    var init := parts[..|parts| - 1];
    assert init[1..] == parts[1..|parts| - 1];
  }

  // ---------------------------------------------------------------------------
  // Instrument normalisation

  /** `[s.split(',') for s in raw.split('+')]`. */
  function SplitEach(pieces: seq<string>, sep: char): (r: seq<seq<string>>)
    ensures |r| == |pieces|
    ensures forall i :: 0 <= i < |r| ==> r[i] == Split(pieces[i], sep)
  {
    if |pieces| == 0 then [] else [Split(pieces[0], sep)] + SplitEach(pieces[1..], sep)
  }

  /** `[item.lower() for item in items]`. */
  function LowerEach(items: seq<string>): (r: seq<string>)
    ensures |r| == |items|
    ensures forall i :: 0 <= i < |r| ==> r[i] == Lower(items[i])
  {
    if |items| == 0 then [] else [Lower(items[0])] + LowerEach(items[1..])
  }

  /** The instrument names before renaming: split on `'+'`, then `','`, flattened and lower-cased. */
  function InstrumentItems(raw: string): seq<string>
  {
    LowerEach(Flatten(SplitEach(Split(raw, '+'), ',')))
  }

  /** The renaming applied by the `enumerate` loop. */
  function Rename(inst: string): string
  {
    if inst == "string" then "strings"
    else if inst == "winds (solo)" then "winds"
    else inst
  }

  /** The list after the renaming loop: each item renamed, in place. */
  function Renamed(items: seq<string>): (r: seq<string>)
    ensures |r| == |items|
    ensures forall i :: 0 <= i < |r| ==> r[i] == Rename(items[i])
  {
    if |items| == 0 then [] else [Rename(items[0])] + Renamed(items[1..])
  }

  /** The renamed items, each once: no name twice, and never `'string'` or `'winds (solo)'`. */
  function NormalizeItems(items: seq<string>): (r: seq<string>)
    ensures NoDuplicates(r)
    ensures "string" !in r && "winds (solo)" !in r
  {
    RenamedAvoidsOldNames(items);
    Dedupe(Renamed(items))
  }

  /** Neither old name survives the renaming. */
  lemma RenamedAvoidsOldNames(items: seq<string>)
    ensures "string" !in Renamed(items) && "winds (solo)" !in Renamed(items)
  {
    var renamed := Renamed(items);
    forall i | 0 <= i < |renamed|
      ensures renamed[i] != "string" && renamed[i] != "winds (solo)"
    {
      RenameAvoidsOldNames(items[i]);
    }
  }

  lemma RenameAvoidsOldNames(inst: string)
    ensures Rename(inst) != "string" && Rename(inst) != "winds (solo)"
  {
    assert |"strings"| != |"string"| && |"winds"| != |"winds (solo)"|;
  }

  /** The normalised list names every item under its new name, and nothing else. */
  lemma NormalizeItemsMembers(items: seq<string>)
    ensures forall item :: item in items ==> Rename(item) in NormalizeItems(items)
    ensures forall x :: x in NormalizeItems(items) ==> exists item :: item in items && x == Rename(item)
  {
    var renamed := Renamed(items);
    forall item | item in items
      ensures Rename(item) in NormalizeItems(items)
    {
      var i :| 0 <= i < |items| && items[i] == item;
      assert renamed[i] == Rename(item);
    }
    forall x | x in NormalizeItems(items)
      ensures exists item :: item in items && x == Rename(item)
    {
      var i :| 0 <= i < |renamed| && renamed[i] == x;
      assert items[i] in items;
    }
  }

  /** `predominant_melodic_instruments-normalized`. */
  function NormalizedInstruments(raw: string): seq<string>
  {
    NormalizeItems(InstrumentItems(raw))
  }

  /**
   * Lines 54-62: build the lower-cased items, rename them in place, then keep
   * each name once.
   */
  method NormalizeInstruments(raw: string) returns (r: seq<string>)
    ensures r == NormalizedInstruments(raw)
  {
    var items := InstrumentItems(raw);
    var renamed := RenameItems(items);
    r := Dedupe(renamed);
  }

  /** Lines 57-61: the `enumerate` loop, which renames the items in place. */
  method RenameItems(before: seq<string>) returns (items: seq<string>)
    ensures items == Renamed(before)
  {
    items := before;
    var i := 0;
    while i < |items|
      invariant 0 <= i <= |items| && |items| == |before|
      invariant forall k :: 0 <= k < i ==> items[k] == Rename(before[k])
      invariant forall k :: i <= k < |items| ==> items[k] == before[k]
    {
      if items[i] == "string" {
        items := items[i := "strings"];
      } else if items[i] == "winds (solo)" {
        items := items[i := "winds"];
      }
      i := i + 1;
    }
  }

  // ---------------------------------------------------------------------------
  // One record

  /** `tf_dict[value]`. */
  function TfDict(value: string): (r: Result<bool, OrchsetError>)
    ensures r.Ok? <==> value == "TRUE" || value == "FALSE"
    ensures r.Ok? ==> r.value == (value == "TRUE")
    ensures r.Err? ==> r.error == KeyError(value)
  {
    if value == "TRUE" then Ok(true)
    else if value == "FALSE" then Ok(false)
    else Err(KeyError(value))
  }

  /**
   * `tf_dict[line[c]]` for each column `c` from `lo` up to `hi` in turn: the
   * first column past the row's end raises `IndexError`, the first value
   * other than `'TRUE'`/`'FALSE'` raises `KeyError`.
   */
  function Flags(line: Row, lo: nat, hi: nat): (r: Result<seq<bool>, OrchsetError>)
    requires lo <= hi
    ensures r.Ok? <==> (lo == hi || hi <= |line|) && forall c :: lo <= c < hi && c < |line| ==> TfDict(line[c]).Ok?
    ensures r.Ok? ==> |r.value| == hi - lo && forall c :: lo <= c < hi ==> r.value[c - lo] == (line[c] == "TRUE")
    decreases hi - lo
  {
    if lo == hi then Ok([])
    else if lo >= |line| then Err(IndexError)
    else
      match TfDict(line[lo])
      case Err(e) => Err(e)
      case Ok(b) =>
        match Flags(line, lo + 1, hi)
        case Err(e) => Err(e)
        case Ok(bs) =>
          Ok([b] + bs)
  }

  /** `os.path.join(data_path, 'audio', 'stereo', '<id>.wav')` and its two siblings: what is hashed. */
  function StereoFile(dataPath: string, trackId: string): string {
    Join(Join3(dataPath, "audio", "stereo"), trackId + ".wav")
  }

  function MonoFile(dataPath: string, trackId: string): string {
    Join(Join3(dataPath, "audio", "mono"), trackId + ".wav")
  }

  function MelodyFile(dataPath: string, trackId: string): string {
    Join(Join(dataPath, "GT"), trackId + ".mel")
  }

  /** Columns 2 to 8 exist and each holds `'TRUE'` or `'FALSE'`. */
  predicate FlagsReadable(line: Row) {
    |line| >= 9 && forall c :: 2 <= c < 9 ==> line[c] == "TRUE" || line[c] == "FALSE"
  }

  /** The boolean columns are read without raising exactly when they are readable. */
  lemma FlagsReadableOk(line: Row)
    ensures Flags(line, 2, 9).Ok? <==> FlagsReadable(line)
    ensures Flags(line, 2, 9).Ok? ==> forall c :: 2 <= c < 9 ==> Flags(line, 2, 9).value[c - 2] == (line[c] == "TRUE")
  {
  }

  /** The three files a record hashes exist. */
  predicate DataFilesPresent(fs: Fs, dataPath: string, id: string) {
    && StereoFile(dataPath, id) in fs.files
    && MonoFile(dataPath, id) in fs.files
    && MelodyFile(dataPath, id) in fs.files
  }

  /** The three digests, in the order the row's code takes them; the first missing file raises. */
  function Checksums(fs: Fs, hash: Hash, dataPath: string, id: string): (r: Result<seq<string>, OrchsetError>)
    ensures r.Ok? <==> DataFilesPresent(fs, dataPath, id)
    ensures r.Ok? ==> r.value == [hash(fs.files[StereoFile(dataPath, id)]),
                                  hash(fs.files[MonoFile(dataPath, id)]),
                                  hash(fs.files[MelodyFile(dataPath, id)])]
  {
    match FileMd5(fs, hash, StereoFile(dataPath, id))
    case Err(e) => Err(Io(e))
    case Ok(stereo) =>
      match FileMd5(fs, hash, MonoFile(dataPath, id))
      case Err(e) => Err(Io(e))
      case Ok(mono) =>
        match FileMd5(fs, hash, MelodyFile(dataPath, id))
        case Err(e) => Err(Io(e))
        case Ok(melody) => Ok([stereo, mono, melody])
  }

  /** The dictionary literal of lines 71-98, from the values computed before it. */
  function Assemble(id: string, parts: seq<string>, line: Row, instruments: seq<string>,
                    sums: seq<string>, flags: seq<bool>): OrchsetTrack
    requires |parts| >= 1 && |line| >= 2 && |sums| == 3 && |flags| == 7
  {
    OrchsetTrack(
      DataFile("Orchset/audio/stereo/" + id + ".wav", sums[0]),
      DataFile("Orchset/audio/mono/" + id + ".wav", sums[1]),
      DataFile("Orchset/GT/" + id + ".mel", sums[2]),
      line[1], instruments,
      flags[0], flags[1], flags[2], flags[3], flags[4], flags[5], flags[6],
      Composer(parts), Work(parts), Excerpt(parts))
  }

  /**
   * The record built for one data row, or what building it raises, in the
   * order the row's code evaluates: the id split, `line[1]`, the three
   * checksums, then the boolean columns. It is built exactly when the id
   * splits, the three data files exist and the row's boolean columns are
   * readable.
   */
  function RowRecord(fs: Fs, hash: Hash, dataPath: string, line: Row): (r: Result<OrchsetTrack, OrchsetError>)
    requires |line| > 0
  {
    var id := TrackId(line[0]);
    match IdSplit(id)
    case Err(e) => Err(e)
    case Ok(parts) =>
      if |line| < 2 then Err(IndexError)
      else
        match Checksums(fs, hash, dataPath, id)
        case Err(e) => Err(e)
        case Ok(sums) =>
          match Flags(line, 2, 9)
          case Err(e) => Err(e)
          case Ok(f) => Ok(Assemble(id, parts, line, NormalizedInstruments(line[1]), sums, f))
  }

  lemma RowRecordOk(fs: Fs, hash: Hash, dataPath: string, line: Row)
    requires |line| > 0
    ensures RowRecord(fs, hash, dataPath, line).Ok? <==>
      IdSplit(TrackId(line[0])).Ok? && DataFilesPresent(fs, dataPath, TrackId(line[0])) && FlagsReadable(line)
  {
    FlagsReadableOk(line);
  }

  /**
   * The fields of a built record: the three data-file paths under `Orchset/`
   * with the digests of the files under `data_path`, the raw instrument field
   * verbatim and its normalisation, each boolean column read as `'TRUE'`, and
   * the composer, work and excerpt of the id.
   */
  lemma RowRecordFields(fs: Fs, hash: Hash, dataPath: string, line: Row)
    requires |line| > 0 && RowRecord(fs, hash, dataPath, line).Ok?
    ensures var id := TrackId(line[0]);
      var t := RowRecord(fs, hash, dataPath, line).value;
      && t.audioStereo == DataFile("Orchset/audio/stereo/" + id + ".wav", hash(fs.files[StereoFile(dataPath, id)]))
      && t.audioMono == DataFile("Orchset/audio/mono/" + id + ".wav", hash(fs.files[MonoFile(dataPath, id)]))
      && t.melody == DataFile("Orchset/GT/" + id + ".mel", hash(fs.files[MelodyFile(dataPath, id)]))
      && t.instrumentsRaw == line[1]
      && t.instrumentsNormalized == NormalizedInstruments(line[1])
      && t.alternatingMelody == (line[2] == "TRUE")
      && t.containsWinds == (line[3] == "TRUE")
      && t.containsStrings == (line[4] == "TRUE")
      && t.containsBrass == (line[5] == "TRUE")
      && t.onlyStrings == (line[6] == "TRUE")
      && t.onlyWinds == (line[7] == "TRUE")
      && t.onlyBrass == (line[8] == "TRUE")
      && t.composer == Composer(IdSplit(id).value)
      && t.work == Work(IdSplit(id).value)
      && t.excerpt == Excerpt(IdSplit(id).value)
  {
    FlagsReadableOk(line);
    var f := Flags(line, 2, 9).value;
    assert f[0] == (line[2] == "TRUE") && f[1] == (line[3] == "TRUE") && f[2] == (line[4] == "TRUE");
    assert f[3] == (line[5] == "TRUE") && f[4] == (line[6] == "TRUE") && f[5] == (line[7] == "TRUE");
    assert f[6] == (line[8] == "TRUE");
  }

  // ---------------------------------------------------------------------------
  // The whole index

  /** How one data row becomes its record, or what building it raises. */
  type Builder = Row -> Result<OrchsetTrack, OrchsetError>

  /** The record builder of the second loop, for the disk and the data directory given. */
  function RowBuilder(fs: Fs, hash: Hash, dataPath: string): Builder
  {
    (line: Row) => if |line| == 0 then Err(IndexError) else RowRecord(fs, hash, dataPath, line)
  }

  /** On a non-empty row the builder is `RowRecord`. */
  lemma RowBuilderApplies(fs: Fs, hash: Hash, dataPath: string, line: Row)
    requires |line| > 0
    ensures RowBuilder(fs, hash, dataPath)(line) == RowRecord(fs, hash, dataPath, line)
  {
  }

  /** `build` agrees with `RowRecord` on every row that has a first field. */
  ghost predicate BuildsRows(build: Builder, fs: Fs, hash: Hash, dataPath: string)
  {
    forall line: Row {:trigger RowRecord(fs, hash, dataPath, line)} ::
      |line| > 0 ==> build(line) == RowRecord(fs, hash, dataPath, line)
  }

  lemma RowBuilderBuildsRows(fs: Fs, hash: Hash, dataPath: string)
    ensures BuildsRows(RowBuilder(fs, hash, dataPath), fs, hash, dataPath)
  {
    forall line: Row | |line| > 0
      ensures RowBuilder(fs, hash, dataPath)(line) == RowRecord(fs, hash, dataPath, line)
    {
      RowBuilderApplies(fs, hash, dataPath, line);
    }
  }

  /**
   * The second loop: `index[track_id] = build(row)` for each data row in
   * order; the first failing row raises.
   */
  function Records(build: Builder, data: seq<Row>): Result<map<string, OrchsetTrack>, OrchsetError>
    requires forall i :: 0 <= i < |data| ==> |data[i]| > 0
  {
    if |data| == 0 then Ok(map[])
    else
      var init := data[..|data| - 1];
      var last := data[|data| - 1];
      assert forall i :: 0 <= i < |init| ==> init[i] == data[i];
      match Records(build, init)
      case Err(e) => Err(e)
      case Ok(m) =>
        match build(last)
        case Err(e) => Err(e)
        case Ok(t) => Ok(m[TrackId(last[0]) := t])
  }

  /** One step of the second loop: extend by the next row, or stop with its error. */
  lemma RecordsStep(build: Builder, data: seq<Row>, j: nat, index: map<string, OrchsetTrack>)
    requires forall i :: 0 <= i < |data| ==> |data[i]| > 0
    requires j < |data| && Records(build, data[..j]) == Ok(index)
    ensures build(data[j]).Ok? ==> Records(build, data[..j + 1]) == Ok(index[TrackId(data[j][0]) := build(data[j]).value])
    ensures build(data[j]).Err? ==> Records(build, data) == Err(build(data[j]).error)
  {
    assert data[..j + 1][..j] == data[..j];
    if build(data[j]).Err? {
      RecordsErrPersists(build, data, j + 1);
    }
  }

  /** The index is built exactly when every data row builds. */
  lemma {:induction false} RecordsOk(build: Builder, data: seq<Row>)
    requires forall i :: 0 <= i < |data| ==> |data[i]| > 0
    ensures Records(build, data).Ok? <==> forall i :: 0 <= i < |data| ==> build(data[i]).Ok?
  {
    if |data| > 0 {
      var init := data[..|data| - 1];
      assert forall i :: 0 <= i < |init| ==> init[i] == data[i];
      RecordsOk(build, init);
    }
  }

  /** The keys of the index are exactly the ids of the data rows. */
  lemma RecordsKeys(build: Builder, data: seq<Row>)
    requires forall i :: 0 <= i < |data| ==> |data[i]| > 0
    requires Records(build, data).Ok?
    ensures forall i :: 0 <= i < |data| ==> TrackId(data[i][0]) in Records(build, data).value
    ensures forall k :: k in Records(build, data).value ==> exists i :: 0 <= i < |data| && TrackId(data[i][0]) == k
  {
    RecordsCoverRows(build, data);
    RecordsOnlyRows(build, data);
  }

  /** Every data row's id is a key of the index. */
  lemma {:induction false} RecordsCoverRows(build: Builder, data: seq<Row>)
    requires forall i :: 0 <= i < |data| ==> |data[i]| > 0
    requires Records(build, data).Ok?
    ensures forall i :: 0 <= i < |data| ==> TrackId(data[i][0]) in Records(build, data).value
  {
    if |data| > 0 {
      var init := data[..|data| - 1];
      assert forall i :: 0 <= i < |init| ==> init[i] == data[i];
      RecordsCoverRows(build, init);
      var m := Records(build, init).value;
      var m' := Records(build, data).value;
      assert m.Keys <= m'.Keys;
      forall i | 0 <= i < |data|
        ensures TrackId(data[i][0]) in m'
      {
        if i < |init| {
          assert TrackId(init[i][0]) in m;
        }
      }
    }
  }

  /** Every key of the index is the id of some data row. */
  lemma {:induction false} RecordsOnlyRows(build: Builder, data: seq<Row>)
    requires forall i :: 0 <= i < |data| ==> |data[i]| > 0
    requires Records(build, data).Ok?
    ensures forall k :: k in Records(build, data).value ==> exists i :: 0 <= i < |data| && TrackId(data[i][0]) == k
  {
    if |data| > 0 {
      var init := data[..|data| - 1];
      var last := data[|data| - 1];
      assert forall i :: 0 <= i < |init| ==> init[i] == data[i];
      RecordsOnlyRows(build, init);
      var m := Records(build, init).value;
      var m' := Records(build, data).value;
      assert m'.Keys == m.Keys + {TrackId(last[0])};
      forall k | k in m'
        ensures exists i :: 0 <= i < |data| && TrackId(data[i][0]) == k
      {
        if k == TrackId(last[0]) {
          assert TrackId(data[|data| - 1][0]) == k;
        } else {
          var i :| 0 <= i < |init| && TrackId(init[i][0]) == k;
          assert TrackId(data[i][0]) == k;
        }
      }
    }
  }

  /**
   * A later row with the same id replaces an earlier one: each id holds the
   * record of the last data row carrying it.
   */
  lemma {:induction false} LastRowWins(build: Builder, data: seq<Row>, i: nat)
    requires forall k :: 0 <= k < |data| ==> |data[k]| > 0
    requires Records(build, data).Ok?
    requires i < |data|
    requires forall j :: i < j < |data| ==> TrackId(data[j][0]) != TrackId(data[i][0])
    ensures build(data[i]).Ok? && TrackId(data[i][0]) in Records(build, data).value
    ensures Records(build, data).value[TrackId(data[i][0])] == build(data[i]).value
  {
    RecordsOk(build, data);
    if i < |data| - 1 {
      var init := data[..|data| - 1];
      assert forall k :: 0 <= k < |init| ==> init[k] == data[k];
      LastRowWins(build, init, i);
    }
  }

  lemma {:induction false} RecordsErrPersists(build: Builder, data: seq<Row>, n: nat)
    requires forall i :: 0 <= i < |data| ==> |data[i]| > 0
    requires n <= |data|
    requires Records(build, data[..n]).Err?
    ensures Records(build, data) == Records(build, data[..n])
    decreases |data|
  {
    if n == |data| {
      assert data[..n] == data;
    } else {
      var init := data[..|data| - 1];
      assert init[..n] == data[..n];
      RecordsErrPersists(build, init, n);
    }
  }

  /**
   * `make_orchset_index(data_path)`: open the table, keep its data rows, and
   * build the index from them; opening a missing table raises.
   */
  function OrchsetIndexOf(fs: Fs, hash: Hash, csv: CsvReader, dataPath: string)
    : (r: Result<map<string, OrchsetTrack>, OrchsetError>)
    ensures Join(dataPath, InstrumentsTable) !in fs.files ==> r.Err? && r.error.Io?
  {
    match Read(fs, Join(dataPath, InstrumentsTable))
    case Err(e) => Err(Io(e))
    case Ok(bytes) =>
      match DataRows(csv(bytes))
      case Err(e) => Err(e)
      case Ok(data) => Records(RowBuilder(fs, hash, dataPath), data)
  }

  /**
   * The keys of a built index are exactly the ids of the table's rows other
   * than the header, every one of which is non-empty.
   */
  lemma OrchsetIndexKeys(fs: Fs, hash: Hash, csv: CsvReader, dataPath: string)
    requires OrchsetIndexOf(fs, hash, csv, dataPath).Ok?
    ensures var r := OrchsetIndexOf(fs, hash, csv, dataPath).value;
      var rows := csv(fs.files[Join(dataPath, InstrumentsTable)]);
      && (forall row :: row in rows ==> |row| > 0)
      && (forall row :: row in rows && row[0] != "excerpt" ==> TrackId(row[0]) in r)
      && (forall k :: k in r ==> exists row :: row in rows && row[0] != "excerpt" && TrackId(row[0]) == k)
  {
    TableKeys(RowBuilder(fs, hash, dataPath), csv(fs.files[Join(dataPath, InstrumentsTable)]));
  }

  /**
   * Each id of a built index holds the record of the last non-header row of
   * the table carrying that id.
   */
  lemma OrchsetIndexLastRow(fs: Fs, hash: Hash, csv: CsvReader, dataPath: string, i: nat)
    requires OrchsetIndexOf(fs, hash, csv, dataPath).Ok?
    requires var rows := csv(fs.files[Join(dataPath, InstrumentsTable)]);
      && i < |rows| && |rows[i]| > 0 && rows[i][0] != "excerpt"
      && forall j :: i < j < |rows| && |rows[j]| > 0 && rows[j][0] != "excerpt" ==> TrackId(rows[j][0]) != TrackId(rows[i][0])
    ensures var rows := csv(fs.files[Join(dataPath, InstrumentsTable)]);
      var r := OrchsetIndexOf(fs, hash, csv, dataPath).value;
      && RowRecord(fs, hash, dataPath, rows[i]).Ok?
      && TrackId(rows[i][0]) in r
      && r[TrackId(rows[i][0])] == RowRecord(fs, hash, dataPath, rows[i]).value
  {
    var rows := csv(fs.files[Join(dataPath, InstrumentsTable)]);
    TableLastRow(RowBuilder(fs, hash, dataPath), rows, i);
    RowBuilderApplies(fs, hash, dataPath, rows[i]);
  }

  /** `OrchsetIndexLastRow` for any record builder. */
  lemma TableLastRow(build: Builder, rows: seq<Row>, i: nat)
    requires DataRows(rows).Ok? && Records(build, DataRows(rows).value).Ok?
    requires i < |rows| && |rows[i]| > 0 && rows[i][0] != "excerpt"
    requires forall j :: i < j < |rows| && |rows[j]| > 0 && rows[j][0] != "excerpt" ==> TrackId(rows[j][0]) != TrackId(rows[i][0])
    ensures var r := Records(build, DataRows(rows).value).value;
      build(rows[i]).Ok? && TrackId(rows[i][0]) in r && r[TrackId(rows[i][0])] == build(rows[i]).value
  {
    var data := DataRows(rows).value;
    KeptAt(rows, i);
    KeptMembers(rows);
    var k := |Kept(rows[..i])|;
    assert data == Kept(rows) && data[k] == rows[i];
    forall j | k < j < |data|
      ensures TrackId(data[j][0]) != TrackId(data[k][0])
    {
      var m :| i < m < |rows| && rows[m] == data[j];
      assert data[j] in Kept(rows);
    }
    LastRowWins(build, data, k);
  }

  /** The rows kept around a kept row: those kept before it, the row, then those kept after it. */
  lemma KeptAround(rows: seq<Row>, i: nat)
    requires forall j :: 0 <= j < |rows| ==> |rows[j]| > 0
    requires i < |rows| && rows[i][0] != "excerpt"
    ensures Kept(rows) == Kept(rows[..i]) + [rows[i]] + Kept(rows[i + 1..])
  {
    var before := rows[..i];
    var after := rows[i + 1..];
    assert rows == before + ([rows[i]] + after);
    KeptAppend(before, [rows[i]] + after);
    KeptAppend([rows[i]], after);
    assert Kept([rows[i]]) == [rows[i]] by { KeptSnoc([], rows[i]); }
  }

  /** A kept row sits in the kept rows after those kept before it, followed only by kept rows that come after it. */
  lemma KeptAt(rows: seq<Row>, i: nat)
    requires forall j :: 0 <= j < |rows| ==> |rows[j]| > 0
    requires i < |rows| && rows[i][0] != "excerpt"
    ensures var k := |Kept(rows[..i])|;
      && k < |Kept(rows)| && Kept(rows)[k] == rows[i]
      && forall j :: k < j < |Kept(rows)| ==> exists m :: i < m < |rows| && rows[m] == Kept(rows)[j]
  {
    var before := rows[..i];
    var after := rows[i + 1..];
    KeptAround(rows, i);
    var k := |Kept(before)|;
    KeptMembers(after);
    forall j | k < j < |Kept(rows)|
      ensures exists m :: i < m < |rows| && rows[m] == Kept(rows)[j]
    {
      var row := Kept(rows)[j];
      assert row == Kept(after)[j - k - 1];
      assert row in Kept(after);
      var m :| 0 <= m < |after| && after[m] == row;
      assert rows[i + 1 + m] == row;
    }
  }

  /** `OrchsetIndexKeys` for any record builder. */
  lemma TableKeys(build: Builder, rows: seq<Row>)
    requires DataRows(rows).Ok? && Records(build, DataRows(rows).value).Ok?
    ensures var r := Records(build, DataRows(rows).value).value;
      && (forall row :: row in rows ==> |row| > 0)
      && (forall row :: row in rows && row[0] != "excerpt" ==> TrackId(row[0]) in r)
      && (forall k :: k in r ==> exists row :: row in rows && row[0] != "excerpt" && TrackId(row[0]) == k)
  {
    var data := DataRows(rows).value;
    var r := Records(build, data).value;
    assert forall row :: row in rows ==> |row| > 0;
    KeptMembers(rows);
    RecordsKeys(build, data);
    forall row | row in rows && row[0] != "excerpt"
      ensures TrackId(row[0]) in r
    {
      var i :| 0 <= i < |data| && data[i] == row;
    }
    forall k | k in r
      ensures exists row :: row in rows && row[0] != "excerpt" && TrackId(row[0]) == k
    {
      var i :| 0 <= i < |data| && TrackId(data[i][0]) == k;
      assert data[i] in data;
    }
  }

  /**
   * The second loop run on the disk: build each record in turn, stopping at
   * the first that raises. `build` stands for `RowRecord` on this disk.
   */
  method BuildRecords(disk: Disk, hash: Hash, dataPath: string, data: seq<Row>, ghost build: Builder)
    returns (r: Result<map<string, OrchsetTrack>, OrchsetError>)
    requires forall i :: 0 <= i < |data| ==> |data[i]| > 0
    requires BuildsRows(build, disk.State(), hash, dataPath)
    ensures r == Records(build, data)
  {
    var index: map<string, OrchsetTrack> := map[];
    var j := 0;
    while j < |data|
      invariant 0 <= j <= |data|
      invariant Records(build, data[..j]) == Ok(index)
    {
      var record := MakeRecord(disk, hash, dataPath, data[j], build);
      RecordsStep(build, data, j, index);
      if record.Err? {
        return Err(record.error);
      }
      index := index[TrackId(data[j][0]) := record.value];
      j := j + 1;
    }
    assert data[..|data|] == data;
    r := Ok(index);
  }

  /**
   * Lines 46-53: split the id on `'-'` in place, then, for the two composers,
   * store the first two pieces joined back at index 0 and pop index 1.
   */
  method SplitTrackId(trackId: string) returns (r: Result<seq<string>, OrchsetError>)
    requires '.' !in trackId
    ensures r == IdSplit(trackId)
  {
    var idSplit := Split(FirstPiece(trackId, '.'), '-');
    if MergesComposer(idSplit[0]) {
      if |idSplit| < 2 {
        return Err(IndexError);
      }
      ghost var parts := idSplit;
      assert idSplit[..2][1..] == [parts[1]];
      assert JoinWith(idSplit[..2], '-') == parts[0] + "-" + parts[1];
      idSplit := idSplit[0 := JoinWith(idSplit[..2], '-')];
      idSplit := idSplit[..1] + idSplit[2..];
      assert idSplit == [parts[0] + "-" + parts[1]] + parts[2..];
    }
    r := Ok(idSplit);
  }

  /** Lines 63-65: hash the stereo, mono and melody files of a track, in that order. */
  method HashDataFiles(disk: Disk, hash: Hash, dataPath: string, id: string)
    returns (r: Result<seq<string>, OrchsetError>)
    ensures r == Checksums(disk.State(), hash, dataPath, id)
  {
    var stereo := disk.Md5(hash, StereoFile(dataPath, id));
    if stereo.Err? {
      return Err(Io(stereo.error));
    }
    var mono := disk.Md5(hash, MonoFile(dataPath, id));
    if mono.Err? {
      return Err(Io(mono.error));
    }
    var melody := disk.Md5(hash, MelodyFile(dataPath, id));
    if melody.Err? {
      return Err(Io(melody.error));
    }
    r := Ok([stereo.value, mono.value, melody.value]);
  }

  /**
   * The body of the second loop for one row: split the id, normalise the
   * instruments, hash the three data files, read the boolean columns and
   * build the record.
   */
  method MakeRecord(disk: Disk, hash: Hash, dataPath: string, line: Row, ghost build: Builder)
    returns (r: Result<OrchsetTrack, OrchsetError>)
    requires |line| > 0
    requires BuildsRows(build, disk.State(), hash, dataPath)
    ensures r == build(line)
  {
    assert build(line) == RowRecord(disk.State(), hash, dataPath, line);
    var trackId := FirstPiece(line[0], '.');
    var idSplit := SplitTrackId(trackId);
    if idSplit.Err? {
      return Err(idSplit.error);
    }
    if |line| < 2 {
      return Err(IndexError);
    }
    var instruments := NormalizeInstruments(line[1]);
    var sums := HashDataFiles(disk, hash, dataPath, trackId);
    if sums.Err? {
      return Err(sums.error);
    }
    var flags := Flags(line, 2, 9);
    if flags.Err? {
      return Err(flags.error);
    }
    r := Ok(Assemble(trackId, idSplit.value, line, instruments, sums.value, flags.value));
  }

  /** The first loop: keep every row but the headers, reading `line[0]` of each. */
  method ReadDataRows(rows: seq<Row>) returns (r: Result<seq<Row>, OrchsetError>)
    ensures r == DataRows(rows)
  {
    var rawData: seq<Row> := [];
    var i := 0;
    while i < |rows|
      invariant 0 <= i <= |rows|
      invariant forall k :: 0 <= k < i ==> |rows[k]| > 0
      invariant rawData == Kept(rows[..i])
    {
      if |rows[i]| == 0 {
        return Err(IndexError);
      }
      assert rows[..i + 1][..i] == rows[..i];
      if rows[i][0] != "excerpt" {
        rawData := rawData + [rows[i]];
      }
      i := i + 1;
    }
    assert rows[..|rows|] == rows;
    r := Ok(rawData);
  }

  /** `make_orchset_index(data_path)` on the disk: open the table, then run the two loops. */
  method MakeOrchsetIndex(disk: Disk, hash: Hash, csv: CsvReader, dataPath: string)
    returns (r: Result<map<string, OrchsetTrack>, OrchsetError>)
    ensures r == OrchsetIndexOf(disk.State(), hash, csv, dataPath)
  {
    var tablePath := Join(dataPath, InstrumentsTable);
    if tablePath !in disk.files {
      return Err(Io(if tablePath in disk.dirs then IsADirectory(tablePath) else FileNotFound(tablePath)));
    }
    var rawData := ReadDataRows(csv(disk.files[tablePath]));
    if rawData.Err? {
      return Err(rawData.error);
    }
    ghost var build := RowBuilder(disk.State(), hash, dataPath);
    RowBuilderBuildsRows(disk.State(), hash, dataPath);
    r := BuildRecords(disk, hash, dataPath, rawData.value, build);
  }
}
