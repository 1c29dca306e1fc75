/**
 * `mir_dataset_loaders/load_utils.py`: `get_local_path` and the presence
 * `validator`, which lists, per track of a dataset index, the files that are
 * not on disk.
 *
 * The validator as written passes its arguments to `get_local_path` in the
 * wrong order (the stored path lands in the `data_home` slot). `Validator`
 * models it as written; `IntendedMissingFiles` is the corrected definition.
 */
module LoadUtils {
  import opened Wrappers
  import opened Text
  import opened Paths

  /** A track record of the index: file key to the path stored for it. */
  type Track = map<string, string>

  /** One `track_id: track` item of the index, in the index's own order. */
  datatype Entry = Entry(trackId: string, track: Track)

  /** What the validator can raise: a file key a track lacks, or `os.path.join(..., None)`. */
  datatype ValidatorError = KeyError(key: string) | TypeError

  /** How a stored path is turned into the path checked on disk, or the error that raises. */
  type Locate = string -> Result<string, ValidatorError>

  predicate DistinctIds(index: seq<Entry>) {
    forall i, j :: 0 <= i < j < |index| ==> index[i].trackId != index[j].trackId
  }

  /**
   * `get_local_path(data_home, rel_path)`: `rel_path` under `data_home`, or
   * under `MIR_DATASETS_DIR` when `data_home` is None (an absolute `rel_path`
   * stands for itself, as with `os.path.join`).
   */
  function GetLocalPath(dataHome: Option<string>, relPath: string): (r: string)
    ensures !IsAbsolute(relPath) ==> dataHome.GetOr(MirDatasetsDir) <= r && EndsWith(r, relPath)
    ensures IsAbsolute(relPath) ==> r == relPath
  {
    if dataHome.None? then Join(MirDatasetsDir, relPath)
    else Join(dataHome.value, relPath)
  }

  /**
   * The call as written at load_utils.py:19, `get_local_path(track[key], data_home)`:
   * the stored path is the base and `data_home` the relative part, and a None
   * `data_home` reaches `os.path.join` and raises `TypeError`.
   */
  function AsWrittenLocate(dataHome: Option<string>): Locate
  {
    (stored: string) =>
      if dataHome.None? then Err(TypeError) else Ok(GetLocalPath(Some(stored), dataHome.value))
  }

  /** The evidently intended call, `get_local_path(data_home, track[key])`. */
  function IntendedLocate(dataHome: Option<string>): Locate
  {
    (stored: string) => Ok(GetLocalPath(dataHome, stored))
  }

  /**
   * `missing_files[track_id]` for one track: walking `file_keys` in order, the
   * located path of every key whose file does not exist. It raises when the
   * track lacks a key or locating raises. On success every key is present,
   * every missing file is listed, and every listed path is a missing file of
   * some key, so the list is no longer than `file_keys`.
   */
  function MissingFiles(track: Track, fileKeys: seq<string>, locate: Locate, present: string -> bool)
    : (r: Result<seq<string>, ValidatorError>)
    ensures r.Ok? ==> |r.value| <= |fileKeys|
    ensures r.Ok? <==> forall k :: k in fileKeys ==> k in track && locate(track[k]).Ok?
    ensures r.Ok? ==> forall k :: k in fileKeys && !present(locate(track[k]).value) ==> locate(track[k]).value in r.value
    ensures r.Ok? ==> forall p :: p in r.value ==> !present(p) && exists k :: k in fileKeys && k in track && locate(track[k]) == Ok(p)
  {
    if |fileKeys| == 0 then Ok([])
    else
      var init := fileKeys[..|fileKeys| - 1];
      var key := fileKeys[|fileKeys| - 1];
      assert fileKeys == init + [key];
      match MissingFiles(track, init, locate, present)
      case Err(e) => Err(e)
      case Ok(prev) =>
        if key !in track then Err(KeyError(key))
        else
          match locate(track[key])
          case Err(e) => Err(e)
          case Ok(p) => Ok(if present(p) then prev else prev + [p])
  }

  /** A track's list is empty exactly when every one of its files exists. */
  lemma {:induction false} MissingFilesEmptyIff(track: Track, fileKeys: seq<string>, locate: Locate, present: string -> bool)
    requires MissingFiles(track, fileKeys, locate, present).Ok?
    ensures MissingFiles(track, fileKeys, locate, present).value == [] <==>
              forall k :: k in fileKeys ==> present(locate(track[k]).value)
  {
    var r := MissingFiles(track, fileKeys, locate, present).value;
    if r == [] {
      forall k | k in fileKeys
        ensures present(locate(track[k]).value)
      {
        if !present(locate(track[k]).value) {
          assert false;
        }
      }
    } else {
      var k :| k in fileKeys && k in track && locate(track[k]) == Ok(r[0]);
      assert !present(locate(track[k]).value);
    }
  }

  /**
   * The first loop of `validator`: one `missing_files` entry per index item,
   * filled in index order (a later item with the same id would replace an
   * earlier one). It raises as soon as a track raises.
   */
  function Collect(index: seq<Entry>, fileKeys: seq<string>, locate: Locate, present: string -> bool)
    : (r: Result<map<string, seq<string>>, ValidatorError>)
    ensures r.Ok? ==> r.value.Keys == set e | e in index :: e.trackId
    ensures r.Ok? <==> forall e :: e in index ==> MissingFiles(e.track, fileKeys, locate, present).Ok?
  {
    if |index| == 0 then Ok(map[])
    else
      var init := index[..|index| - 1];
      var last := index[|index| - 1];
      assert index == init + [last];
      match Collect(init, fileKeys, locate, present)
      case Err(e) => Err(e)
      case Ok(m) =>
        match MissingFiles(last.track, fileKeys, locate, present)
        case Err(e) => Err(e)
        case Ok(missing) => Ok(m[last.trackId := missing])
  }

  /** With distinct track ids, each id maps to its own track's missing files. */
  lemma {:induction false} CollectPerTrack(index: seq<Entry>, fileKeys: seq<string>, locate: Locate,
                                           present: string -> bool, i: nat)
    requires DistinctIds(index)
    requires i < |index|
    requires Collect(index, fileKeys, locate, present).Ok?
    ensures MissingFiles(index[i].track, fileKeys, locate, present)
            == Ok(Collect(index, fileKeys, locate, present).value[index[i].trackId])
  {
    var init := index[..|index| - 1];
    assert index == init + [index[|index| - 1]];
    if i < |index| - 1 {
      assert init[i] == index[i];
      CollectPerTrack(init, fileKeys, locate, present, i);
    }
  }

  /** The lines the second loop of `validator` prints for the tracks with missing files. */
  function Printout(ids: seq<string>, missing: map<string, seq<string>>): seq<string>
    requires forall id :: id in ids ==> id in missing
  {
    if |ids| == 0 then []
    else
      var init := ids[..|ids| - 1];
      var id := ids[|ids| - 1];
      assert forall x :: x in init ==> x in ids;
      Printout(init, missing)
      + (if |missing[id]| > 0 then ["Files missing for " + id + ":"] + missing[id] + [Dashes] else [])
  }

  /** The separator line printed after each track's list. */
  const Dashes: string := "--------------------"

  /** The track ids of the index, in index order. */
  function Ids(index: seq<Entry>): (ids: seq<string>)
    ensures |ids| == |index| && forall i :: 0 <= i < |index| ==> ids[i] == index[i].trackId
  {
    if |index| == 0 then [] else Ids(index[..|index| - 1]) + [index[|index| - 1].trackId]
  }

  /** One more file key: the key's error, or the list extended by its path when that file does not exist. */
  lemma MissingFilesStep(track: Track, fileKeys: seq<string>, j: nat, locate: Locate, present: string -> bool)
    requires j < |fileKeys| && MissingFiles(track, fileKeys[..j], locate, present).Ok?
    ensures var prev := MissingFiles(track, fileKeys[..j], locate, present).value;
      var key := fileKeys[j];
      MissingFiles(track, fileKeys[..j + 1], locate, present)
        == if key !in track then Err(KeyError(key))
           else if locate(track[key]).Err? then Err(locate(track[key]).error)
           else Ok(if present(locate(track[key]).value) then prev else prev + [locate(track[key]).value])
  {
    assert fileKeys[..j + 1][..j] == fileKeys[..j];
  }

  /**
   * The inner loop of `validator` for one track, as written: walk `file_keys`,
   * raising `KeyError` for a key the track lacks and `TypeError` when
   * `data_home` is None, and collect the located paths that do not exist.
   */
  method TrackMissingFiles(track: Track, fileKeys: seq<string>, dataHome: Option<string>, present: string -> bool)
    returns (r: Result<seq<string>, ValidatorError>)
    ensures r == MissingFiles(track, fileKeys, AsWrittenLocate(dataHome), present)
  {
    var locate := AsWrittenLocate(dataHome);
    var list: seq<string> := [];
    var j := 0;
    while j < |fileKeys|
      invariant 0 <= j <= |fileKeys|
      invariant MissingFiles(track, fileKeys[..j], locate, present) == Ok(list)
    {
      var key := fileKeys[j];
      MissingFilesStep(track, fileKeys, j, locate, present);
      if key !in track {
        MissingFilesErrPersists(track, fileKeys, locate, present, j + 1);
        return Err(KeyError(key));
      }
      if dataHome.None? {
        MissingFilesErrPersists(track, fileKeys, locate, present, j + 1);
        return Err(TypeError);
      }
      var localPath := GetLocalPath(Some(track[key]), dataHome.value);
      if !present(localPath) {
        list := list + [localPath];
      }
      j := j + 1;
    }
    assert fileKeys[..|fileKeys|] == fileKeys;
    r := Ok(list);
  }

  /** The second loop of `validator`: print the list of each track that has missing files. */
  method PrintMissing(ids: seq<string>, missing: map<string, seq<string>>) returns (printed: seq<string>)
    requires forall id :: id in ids ==> id in missing
    ensures printed == Printout(ids, missing)
  {
    printed := [];
    var k := 0;
    while k < |ids|
      invariant 0 <= k <= |ids|
      invariant printed == Printout(ids[..k], missing)
    {
      assert ids[..k + 1][..k] == ids[..k];
      var id := ids[k];
      if |missing[id]| > 0 {
        printed := printed + ["Files missing for " + id + ":"];
        var m := 0;
        while m < |missing[id]|
          invariant 0 <= m <= |missing[id]|
          invariant printed == Printout(ids[..k], missing) + ["Files missing for " + id + ":"] + missing[id][..m]
        {
          assert missing[id][..m + 1] == missing[id][..m] + [missing[id][m]];
          printed := printed + [missing[id][m]];
          m := m + 1;
        }
        assert missing[id][..|missing[id]|] == missing[id];
        printed := printed + [Dashes];
      }
      k := k + 1;
    }
    assert ids[..|ids|] == ids;
  }

  /**
   * `validator(dataset_index, file_keys, data_home)`, as written: the map it
   * returns is `Collect` with the as-written path rule, and what it prints
   * are the listed files of each track that has any, in index order. The
   * index is a dictionary, so its track ids are distinct.
   */
  method Validator(index: seq<Entry>, fileKeys: seq<string>, dataHome: Option<string>, present: string -> bool)
    returns (r: Result<map<string, seq<string>>, ValidatorError>, printed: seq<string>)
    requires DistinctIds(index)
    ensures r == Collect(index, fileKeys, AsWrittenLocate(dataHome), present)
    ensures r.Ok? ==> forall id :: id in Ids(index) ==> id in r.value
    ensures r.Ok? ==> printed == Printout(Ids(index), r.value)
  {
    var locate := AsWrittenLocate(dataHome);
    var missing: map<string, seq<string>> := map[];
    var i := 0;
    while i < |index|
      invariant 0 <= i <= |index|
      invariant Collect(index[..i], fileKeys, locate, present) == Ok(missing)
    {
      var list := TrackMissingFiles(index[i].track, fileKeys, dataHome, present);
      CollectStep(index, fileKeys, locate, present, i, missing);
      if list.Err? {
        return Err(list.error), [];
      }
      missing := missing[index[i].trackId := list.value];
      i := i + 1;
    }
    assert index[..|index|] == index;
    r := Ok(missing);
    CollectCoversIds(index, fileKeys, locate, present);
    printed := PrintMissing(Ids(index), missing);
  }

  /** One turn of the outer loop: the map gains the track's list, or the whole loop raises the track's error. */
  lemma CollectStep(index: seq<Entry>, fileKeys: seq<string>, locate: Locate, present: string -> bool,
                    i: nat, missing: map<string, seq<string>>)
    requires i < |index| && Collect(index[..i], fileKeys, locate, present) == Ok(missing)
    ensures var list := MissingFiles(index[i].track, fileKeys, locate, present);
      && (list.Err? ==> Collect(index, fileKeys, locate, present) == Err(list.error))
      && (list.Ok? ==> Collect(index[..i + 1], fileKeys, locate, present) == Ok(missing[index[i].trackId := list.value]))
  {
    assert index[..i + 1][..i] == index[..i];
    if MissingFiles(index[i].track, fileKeys, locate, present).Err? {
      CollectErrPersists(index, fileKeys, locate, present, i + 1);
    }
  }

  /** A built map has a key for every track id of the index. */
  lemma CollectCoversIds(index: seq<Entry>, fileKeys: seq<string>, locate: Locate, present: string -> bool)
    requires Collect(index, fileKeys, locate, present).Ok?
    ensures forall id :: id in Ids(index) ==> id in Collect(index, fileKeys, locate, present).value
  {
    forall id | id in Ids(index)
      ensures id in Collect(index, fileKeys, locate, present).value
    {
      var i :| 0 <= i < |index| && Ids(index)[i] == id;
      assert index[i] in index;
    }
  }

  lemma {:induction false} MissingFilesErrPersists(track: Track, fileKeys: seq<string>, locate: Locate,
                                                   present: string -> bool, n: nat)
    requires n <= |fileKeys|
    requires MissingFiles(track, fileKeys[..n], locate, present).Err?
    ensures MissingFiles(track, fileKeys, locate, present) == MissingFiles(track, fileKeys[..n], locate, present)
    decreases |fileKeys|
  {
    if n == |fileKeys| {
      assert fileKeys[..n] == fileKeys;
    } else {
      var init := fileKeys[..|fileKeys| - 1];
      assert init[..n] == fileKeys[..n];
      MissingFilesErrPersists(track, init, locate, present, n);
    }
  }

  lemma {:induction false} CollectErrPersists(index: seq<Entry>, fileKeys: seq<string>, locate: Locate,
                                              present: string -> bool, n: nat)
    requires n <= |index|
    requires Collect(index[..n], fileKeys, locate, present).Err?
    ensures Collect(index, fileKeys, locate, present) == Collect(index[..n], fileKeys, locate, present)
    decreases |index|
  {
    if n == |index| {
      assert index[..n] == index;
    } else {
      var init := index[..|index| - 1];
      assert init[..n] == index[..n];
      CollectErrPersists(init, fileKeys, locate, present, n);
    }
  }

  /**
   * The corrected validator: each stored path is looked up under `data_home`
   * (or `MIR_DATASETS_DIR` when it is None). It raises only for a track that
   * lacks a file key, never for a None `data_home`; and a track's list holds
   * exactly the paths `get_local_path(data_home, track[key])` that do not exist.
   */
  function IntendedMissingFiles(index: seq<Entry>, fileKeys: seq<string>, dataHome: Option<string>,
                                present: string -> bool)
    : (r: Result<map<string, seq<string>>, ValidatorError>)
    requires DistinctIds(index)
    ensures r.Ok? <==> forall e, k :: e in index && k in fileKeys ==> k in e.track
    ensures r.Ok? ==> r.value.Keys == set e | e in index :: e.trackId
    ensures r.Ok? ==> forall i, k :: 0 <= i < |index| && k in fileKeys ==>
              (GetLocalPath(dataHome, index[i].track[k]) in r.value[index[i].trackId]
              <==> !present(GetLocalPath(dataHome, index[i].track[k])))
  {
    IntendedOkIff(index, fileKeys, dataHome, present);
    IntendedListsMissing(index, fileKeys, dataHome, present);
    Collect(index, fileKeys, IntendedLocate(dataHome), present)
  }

  /** With the intended path rule, only a missing file key makes a track raise. */
  lemma IntendedOkIff(index: seq<Entry>, fileKeys: seq<string>, dataHome: Option<string>, present: string -> bool)
    ensures Collect(index, fileKeys, IntendedLocate(dataHome), present).Ok? <==>
            forall e, k :: e in index && k in fileKeys ==> k in e.track
  {
    var locate := IntendedLocate(dataHome);
    forall e | e in index
      ensures MissingFiles(e.track, fileKeys, locate, present).Ok? <==> forall k :: k in fileKeys ==> k in e.track
    {
      assert forall k :: k in e.track ==> locate(e.track[k]).Ok?;
    }
  }

  /** With the intended path rule, a track's list holds exactly its files that do not exist. */
  lemma IntendedListsMissing(index: seq<Entry>, fileKeys: seq<string>, dataHome: Option<string>, present: string -> bool)
    requires DistinctIds(index)
    ensures var c := Collect(index, fileKeys, IntendedLocate(dataHome), present);
      c.Ok? ==> forall i, k :: 0 <= i < |index| && k in fileKeys ==>
        (GetLocalPath(dataHome, index[i].track[k]) in c.value[index[i].trackId]
        <==> !present(GetLocalPath(dataHome, index[i].track[k])))
  {
    var locate := IntendedLocate(dataHome);
    var c := Collect(index, fileKeys, locate, present);
    if c.Err? {
      return;
    }
    var m := c.value;
    forall i, k | 0 <= i < |index| && k in fileKeys
      ensures GetLocalPath(dataHome, index[i].track[k]) in m[index[i].trackId]
              <==> !present(GetLocalPath(dataHome, index[i].track[k]))
    {
      CollectPerTrack(index, fileKeys, locate, present, i);
      assert locate(index[i].track[k]) == Ok(GetLocalPath(dataHome, index[i].track[k]));
    }
  }

  /**
   * As written, an absolute `data_home` swallows every stored path: the path
   * checked for every file of every track is `data_home` itself.
   */
  lemma AsWrittenChecksDataHomeOnly(dataHome: string, stored: string)
    requires IsAbsolute(dataHome)
    ensures AsWrittenLocate(Some(dataHome))(stored) == Ok(dataHome)
  {
  }

  /**
   * As written, a None `data_home` makes the validator raise for every index
   * and file key list that are both non-empty.
   */
  lemma AsWrittenNoneRaises(index: seq<Entry>, fileKeys: seq<string>, present: string -> bool)
    requires |index| > 0 && |fileKeys| > 0
    ensures Collect(index, fileKeys, AsWrittenLocate(None), present).Err?
  {
    var locate := AsWrittenLocate(None);
    assert index[0] in index;
    assert fileKeys[0] in fileKeys;
    assert MissingFiles(index[0].track, fileKeys, locate, present).Err?;
  }

  /** One file key, one track: the list is the key's located path when that file does not exist. */
  lemma MissingFilesSingle(track: Track, key: string, locate: Locate, present: string -> bool)
    requires key in track && locate(track[key]).Ok?
    ensures MissingFiles(track, [key], locate, present)
            == Ok(if present(locate(track[key]).value) then [] else [locate(track[key]).value])
  {
    assert [key][..0] == [];
    assert MissingFiles(track, [], locate, present) == Ok([]);
    assert [] + [locate(track[key]).value] == [locate(track[key]).value];
  }

  /** A one-item index maps its id to its track's list. */
  lemma CollectSingle(e: Entry, fileKeys: seq<string>, locate: Locate, present: string -> bool)
    requires MissingFiles(e.track, fileKeys, locate, present).Ok?
    ensures Collect([e], fileKeys, locate, present)
            == Ok(map[e.trackId := MissingFiles(e.track, fileKeys, locate, present).value])
  {
    assert [e][..0] == [];
  }

  /**
   * An index of one track whose one file is absent, under an existing absolute
   * `data_home`: the validator as written reports nothing missing, the
   * intended one reports the file.
   */
  lemma AsWrittenMissesAbsentFile(id: string, key: string, dataHome: string, stored: string, present: string -> bool)
    requires IsAbsolute(dataHome) && !IsAbsolute(stored)
    requires present(dataHome) && !present(Join(dataHome, stored))
    ensures var index := [Entry(id, map[key := stored])];
      && Collect(index, [key], AsWrittenLocate(Some(dataHome)), present) == Ok(map[id := []])
      && IntendedMissingFiles(index, [key], Some(dataHome), present) == Ok(map[id := [Join(dataHome, stored)]])
  {
    var e := Entry(id, map[key := stored]);
    MissingFilesSingle(e.track, key, AsWrittenLocate(Some(dataHome)), present);
    CollectSingle(e, [key], AsWrittenLocate(Some(dataHome)), present);
    MissingFilesSingle(e.track, key, IntendedLocate(Some(dataHome)), present);
    CollectSingle(e, [key], IntendedLocate(Some(dataHome)), present);
  }
}
