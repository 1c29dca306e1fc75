/**
 * The orchestrating `downloader(save_dir, index, remotes, partial_download,
 * info_message, force_overwrite, cleanup, allow_invalid_checksum)` of
 * `mirdata.download_utils`, and the `download_from_remote`,
 * `download_zip_file` and `download_tar_file` helpers it dispatches to.
 *
 * Which remotes are fetched, and through which helper, is a pure function of
 * the remotes mapping, the index and the explicit `partial_download` (`Plan`);
 * the calls the orchestrator makes are a log the `Dispatcher` appends to. What
 * the helpers then do to the file system is `Perform`, and a whole run is
 * `Run`: the helpers one after another, stopping at the first error.
 */
module Downloader {
  import opened Wrappers
  import opened Text
  import opened Paths
  import opened Storage

  /** `RemoteFileMetadata(filename, url, checksum, destination_dir=None)`. */
  datatype Remote = Remote(filename: string, url: string, checksum: string, destinationDir: Option<string>)

  /** The parts of `core.Index` the orchestrator consults: its own remote and its `partial_download`. */
  datatype Index = Index(remote: Option<Remote>, partialDownload: Option<seq<string>>)

  /** The value passed as `partial_download`: None, a list of keys, or anything that is not a list. */
  datatype Partial = Unset | Keys(keys: seq<string>) | NotAList

  /** `force_overwrite`, `cleanup` and `allow_invalid_checksum`, all False by default. */
  datatype Options = Options(forceOverwrite: bool, cleanup: bool, allowInvalidChecksum: bool)

  const Defaults: Options := Options(false, false, false)

  /** The `remotes` dictionary, as its (key, remote) items in insertion order. */
  type Remotes = seq<(string, Remote)>

  /** The key under which the index's own remote is fetched. */
  const IndexKey: string := "index"

  /** The helper call the orchestrator makes for one remote. */
  datatype Action =
    | DownloadZipFile(remote: Remote, saveDir: string, forceOverwrite: bool, cleanup: bool, allowInvalidChecksum: bool)
    | DownloadTarFile(remote: Remote, saveDir: string, forceOverwrite: bool, cleanup: bool, allowInvalidChecksum: bool)
    | DownloadFromRemote(remote: Remote, saveDir: string, forceOverwrite: bool, allowInvalidChecksum: bool)

  /** The `ValueError` "partial_download must be a list which is a subset of" the given keys. */
  datatype ConfigError = NotASubset(keys: seq<string>)

  /** What the orchestrator raises: a configuration error before any call, or a helper's error. */
  datatype DownloadError = Config(config: ConfigError) | Io(io: IoError)

  // ---------------------------------------------------------------------------
  // The remotes dictionary

  /** `list(remotes.keys())`. */
  function KeysOf(m: Remotes): (r: seq<string>)
    ensures |r| == |m|
    ensures forall i :: 0 <= i < |m| ==> r[i] == m[i].0
  {
    if |m| == 0 then [] else [m[0].0] + KeysOf(m[1..])
  }

  /** A dictionary never holds a key twice. */
  predicate DistinctKeys(m: Remotes) {
    forall i, j :: 0 <= i < j < |m| ==> m[i].0 != m[j].0
  }

  /** `remotes[k] = v`: an existing key keeps its position and takes the new value; a new key goes last. */
  function Put(m: Remotes, k: string, v: Remote): (r: Remotes)
  {
    if |m| == 0 then [(k, v)]
    else if m[0].0 == k then [(k, v)] + m[1..]
    else [m[0]] + Put(m[1..], k, v)
  }

  /** After `remotes[k] = v` the keys are the old ones plus `k`. */
  lemma {:induction false} PutKeys(m: Remotes, k: string, v: Remote)
    ensures forall key :: key in KeysOf(Put(m, k, v)) <==> key == k || key in KeysOf(m)
  {
    if |m| > 0 {
      var tail := m[1..];
      assert KeysOf(m) == [m[0].0] + KeysOf(tail);
      if m[0].0 == k {
        assert ([(k, v)] + tail)[1..] == tail;
        assert KeysOf(Put(m, k, v)) == [k] + KeysOf(tail);
      } else {
        PutKeys(tail, k, v);
        var rest := Put(tail, k, v);
        assert ([m[0]] + rest)[1..] == rest;
        assert KeysOf(Put(m, k, v)) == [m[0].0] + KeysOf(rest);
      }
    }
  }

  /** After `remotes[k] = v` the items are `(k, v)` and the old items under other keys. */
  lemma {:induction false} PutItems(m: Remotes, k: string, v: Remote)
    requires DistinctKeys(m)
    ensures forall e :: e in Put(m, k, v) <==> e == (k, v) || (e.0 != k && e in m)
  {
    if |m| > 0 {
      var tail := m[1..];
      assert m == [m[0]] + tail;
      if m[0].0 == k {
        forall e | e in tail
          ensures e.0 != k
        {
          var i :| 0 <= i < |tail| && tail[i] == e;
          assert m[i + 1] == e;
        }
      } else {
        PutItems(tail, k, v);
      }
    }
  }

  /** `remotes[k] = v` keeps the keys distinct. */
  lemma {:induction false} PutDistinct(m: Remotes, k: string, v: Remote)
    requires DistinctKeys(m)
    ensures DistinctKeys(Put(m, k, v))
  {
    if |m| > 0 {
      var tail := m[1..];
      assert m == [m[0]] + tail;
      if m[0].0 != k {
        PutDistinct(tail, k, v);
        PutItems(tail, k, v);
        var rest := Put(tail, k, v);
        forall i | 0 <= i < |rest|
          ensures rest[i].0 != m[0].0
        {
          assert rest[i] in rest;
          if rest[i] != (k, v) {
            var j :| 0 <= j < |tail| && tail[j] == rest[i];
            assert m[j + 1] == rest[i];
          }
        }
        assert Put(m, k, v) == [m[0]] + rest;
      }
    }
  }

  /** The remotes to consider: the given ones (none for None), with the index's remote put under `"index"`. */
  function WithIndex(remotes: Option<Remotes>, index: Index): Remotes
  {
    var given := if remotes.Some? then remotes.value else [];
    if index.remote.Some? then Put(given, IndexKey, index.remote.value) else given
  }

  // ---------------------------------------------------------------------------
  // Selection and dispatch

  /** The filter in force: the explicit `partial_download`, or the index's when it is None. */
  function Effective(partial: Partial, index: Index): Partial
  {
    if partial.Unset? && index.partialDownload.Some? then Keys(index.partialDownload.value) else partial
  }

  /** No filter, or a list whose every key is a key of the remotes. */
  predicate ValidFilter(f: Partial, all: Remotes)
  {
    f.Unset? || (f.Keys? && forall k :: k in f.keys ==> k in KeysOf(all))
  }

  /** Whether the remote under `k` is fetched: no filter, listed by it, or the index key, which is always fetched. */
  predicate Keep(k: string, f: Partial)
  {
    f.Unset? || (f.Keys? && k in f.keys) || k == IndexKey
  }

  /** The items that pass the filter, in dictionary order. */
  function Selected(all: Remotes, f: Partial): (r: Remotes)
    ensures |r| <= |all|
  {
    if |all| == 0 then []
    else
      var last := all[|all| - 1];
      Selected(all[..|all| - 1], f) + (if Keep(last.0, f) then [last] else [])
  }

  /** The items selected are exactly the items whose key passes the filter. */
  lemma {:induction false} SelectedItems(all: Remotes, f: Partial)
    ensures forall e :: e in Selected(all, f) <==> e in all && Keep(e.0, f)
  {
    if |all| > 0 {
      var init := all[..|all| - 1];
      SelectedItems(init, f);
      assert all == init + [all[|all| - 1]];
    }
  }

  /** Selection keeps the keys distinct: no remote is selected twice. */
  lemma {:induction false} SelectedDistinct(all: Remotes, f: Partial)
    requires DistinctKeys(all)
    ensures DistinctKeys(Selected(all, f))
  {
    if |all| > 0 {
      var init := all[..|all| - 1];
      var last := all[|all| - 1];
      SelectedDistinct(init, f);
      var s := Selected(init, f);
      if Keep(last.0, f) {
        SelectedItems(init, f);
        forall i | 0 <= i < |s|
          ensures s[i].0 != last.0
        {
          var j :| 0 <= j < |init| && init[j] == s[i];
          assert all[j] == s[i];
        }
        assert Selected(all, f) == s + [last];
      }
    }
  }

  /** Every selected item's call is among the calls made for the selection. */
  lemma CallsCover(items: Remotes, saveDir: string, o: Options)
    ensures forall e :: e in items ==> Dispatch(e.1, saveDir, o) in Calls(items, saveDir, o)
  {
    forall e | e in items
      ensures Dispatch(e.1, saveDir, o) in Calls(items, saveDir, o)
    {
      var i :| 0 <= i < |items| && items[i] == e;
      CallsAt(items, saveDir, o);
    }
  }

  /** The archive kind, told by the file name's extension. */
  datatype Kind = Zip | TarGz | Plain

  function KindOf(filename: string): Kind
  {
    if EndsWith(filename, ".zip") then Zip
    else if EndsWith(filename, ".tar.gz") then TarGz
    else Plain
  }

  /**
   * The call for one remote: `download_zip_file(remote, save_dir, ...)` for a
   * zip, `download_tar_file(...)` for a gzipped tar, and otherwise
   * `download_from_remote(remote, save_dir, force_overwrite=...,
   * allow_invalid_checksum=...)`, the options passed through unchanged.
   */
  function Dispatch(remote: Remote, saveDir: string, o: Options): (a: Action)
    ensures a.remote == remote && a.saveDir == saveDir
    ensures a.forceOverwrite == o.forceOverwrite && a.allowInvalidChecksum == o.allowInvalidChecksum
    ensures a.DownloadZipFile? <==> KindOf(remote.filename) == Zip
    ensures a.DownloadTarFile? <==> KindOf(remote.filename) == TarGz
    ensures !a.DownloadFromRemote? ==> a.cleanup == o.cleanup
  {
    match KindOf(remote.filename)
    case Zip => DownloadZipFile(remote, saveDir, o.forceOverwrite, o.cleanup, o.allowInvalidChecksum)
    case TarGz => DownloadTarFile(remote, saveDir, o.forceOverwrite, o.cleanup, o.allowInvalidChecksum)
    case Plain => DownloadFromRemote(remote, saveDir, o.forceOverwrite, o.allowInvalidChecksum)
  }

  /** One call per item, in order. */
  function Calls(items: Remotes, saveDir: string, o: Options): (r: seq<Action>)
    ensures |r| == |items|
  {
    if |items| == 0 then []
    else Calls(items[..|items| - 1], saveDir, o) + [Dispatch(items[|items| - 1].1, saveDir, o)]
  }

  /** The call at each position is the dispatch of the item at that position. */
  lemma {:induction false} CallsAt(items: Remotes, saveDir: string, o: Options)
    ensures forall i :: 0 <= i < |items| ==> Calls(items, saveDir, o)[i] == Dispatch(items[i].1, saveDir, o)
  {
    if |items| > 0 {
      var init := items[..|items| - 1];
      CallsAt(init, saveDir, o);
      forall i | 0 <= i < |items|
        ensures Calls(items, saveDir, o)[i] == Dispatch(items[i].1, saveDir, o)
      {
        if i < |init| {
          assert items[i] == init[i];
        }
      }
    }
  }

  /**
   * The calls `downloader` makes, or the `ValueError` it raises before making
   * any: the filter in force must be a list of keys of the remotes (the
   * index's remote included); each selected remote is then dispatched once.
   */
  function Plan(saveDir: string, index: Index, remotes: Option<Remotes>, partial: Partial, o: Options)
    : Result<seq<Action>, ConfigError>
  {
    var all := WithIndex(remotes, index);
    var f := Effective(partial, index);
    if !ValidFilter(f, all) then Err(NotASubset(KeysOf(all)))
    else Ok(Calls(Selected(all, f), saveDir, o))
  }

  /** A key that is neither among the given remotes nor the key of the index's own remote. */
  predicate Unknown(k: string, remotes: Option<Remotes>, index: Index)
  {
    (remotes.None? || k !in KeysOf(remotes.value)) && (index.remote.None? || k != IndexKey)
  }

  /**
   * A `partial_download` that is not a list, or that names a key which is
   * neither a remote nor the index's own remote, raises the `ValueError`.
   */
  lemma InvalidPartialRejected(saveDir: string, index: Index, remotes: Option<Remotes>, partial: Partial, o: Options)
    requires remotes.Some? ==> DistinctKeys(remotes.value)
    requires partial.NotAList? || (partial.Keys? && exists k :: k in partial.keys && Unknown(k, remotes, index))
    ensures Plan(saveDir, index, remotes, partial, o).Err?
  {
    var given := if remotes.Some? then remotes.value else [];
    if partial.Keys? {
      var k :| k in partial.keys && Unknown(k, remotes, index);
      if index.remote.Some? {
        PutKeys(given, IndexKey, index.remote.value);
      }
      assert k !in KeysOf(WithIndex(remotes, index));
    }
  }

  /**
   * With a valid filter the calls are one per selected remote, in dictionary
   * order, each dispatched by extension; the selected remotes are exactly
   * those the filter in force keeps (every one when there is none) plus the
   * `"index"` item, and none is selected twice.
   */
  lemma PlanCalls(saveDir: string, index: Index, remotes: Option<Remotes>, partial: Partial, o: Options)
    requires remotes.Some? ==> DistinctKeys(remotes.value)
    requires Plan(saveDir, index, remotes, partial, o).Ok?
    ensures var all := WithIndex(remotes, index);
      var f := Effective(partial, index);
      var sel := Selected(all, f);
      var plan := Plan(saveDir, index, remotes, partial, o).value;
      && !f.NotAList?
      && |plan| == |sel|
      && (forall i :: 0 <= i < |sel| ==> plan[i] == Dispatch(sel[i].1, saveDir, o))
      && DistinctKeys(sel)
      && (forall e :: e in sel <==> e in all && (f.Unset? || e.0 in f.keys || e.0 == IndexKey))
  {
    var given := if remotes.Some? then remotes.value else [];
    if index.remote.Some? {
      PutItems(given, IndexKey, index.remote.value);
      PutDistinct(given, IndexKey, index.remote.value);
    }
    SelectedItems(WithIndex(remotes, index), Effective(partial, index));
    SelectedDistinct(WithIndex(remotes, index), Effective(partial, index));
    CallsAt(Selected(WithIndex(remotes, index), Effective(partial, index)), saveDir, o);
  }

  /**
   * The item under `"index"` is fetched whatever the filter, and so is the
   * index's own remote, which takes that key: with `download_from_remote`
   * when its file is not an archive.
   */
  lemma IndexAlwaysFetched(saveDir: string, index: Index, remotes: Option<Remotes>, partial: Partial, o: Options)
    requires remotes.Some? ==> DistinctKeys(remotes.value)
    requires Plan(saveDir, index, remotes, partial, o).Ok?
    ensures var plan := Plan(saveDir, index, remotes, partial, o).value;
      && (index.remote.Some? ==> Dispatch(index.remote.value, saveDir, o) in plan)
      && (index.remote.None? && remotes.Some? ==>
            forall r :: (IndexKey, r) in remotes.value ==> Dispatch(r, saveDir, o) in plan)
  {
    var all := WithIndex(remotes, index);
    var f := Effective(partial, index);
    var sel := Selected(all, f);
    SelectedItems(all, f);
    CallsCover(sel, saveDir, o);
    assert forall r :: (IndexKey, r) in all ==> (IndexKey, r) in sel;
    if index.remote.Some? {
      var given := if remotes.Some? then remotes.value else [];
      PutItems(given, IndexKey, index.remote.value);
      assert (IndexKey, index.remote.value) in all;
    }
  }

  /** With no remotes, no remote of the index and no filter, nothing is fetched. */
  lemma NothingToFetch(saveDir: string, index: Index, partial: Partial, o: Options)
    requires index.remote.None? && index.partialDownload.None? && partial.Unset?
    ensures Plan(saveDir, index, None, partial, o) == Ok([])
  {
    assert Selected([], Unset) == [];
  }

  /**
   * An explicit list overrides the index's `partial_download`; when the
   * explicit one is None the index's is used as if it had been passed.
   */
  lemma ExplicitPartialWins(saveDir: string, index: Index, remotes: Option<Remotes>, ks: seq<string>, o: Options)
    ensures Plan(saveDir, index, remotes, Keys(ks), o)
         == Plan(saveDir, index.(partialDownload := None), remotes, Keys(ks), o)
    ensures index.partialDownload.Some? ==>
              (Plan(saveDir, index, remotes, Unset, o)
               == Plan(saveDir, index.(partialDownload := None), remotes, Keys(index.partialDownload.value), o))
  {
    assert WithIndex(remotes, index) == WithIndex(remotes, index.(partialDownload := None));
  }

  /** Without a filter every item is selected. */
  lemma {:induction false} SelectedAll(all: Remotes)
    ensures Selected(all, Unset) == all
  {
    if |all| > 0 {
      SelectedAll(all[..|all| - 1]);
      assert all == all[..|all| - 1] + [all[|all| - 1]];
    }
  }

  /** The test file names: `remote.zip` is a zip, `remote.tar.gz` a gzipped tar, and `remote.txt` and `asdf.json` are plain files. */
  lemma TestKinds()
    ensures KindOf("remote.zip") == Zip
    ensures KindOf("remote.tar.gz") == TarGz
    ensures KindOf("remote.txt") == Plain
    ensures KindOf("asdf.json") == Plain
  {
    assert "remote.zip"[6..] == ".zip";
    assert "remote.tar.gz"[9..] != ".zip" && "remote.tar.gz"[6..] == ".tar.gz";
    assert "remote.txt"[6..] != ".zip" && "remote.txt"[3..] != ".tar.gz";
    assert "asdf.json"[5..] != ".zip" && "asdf.json"[2..] != ".tar.gz";
  }

  /** Without an index remote or any filter, every item is dispatched, in order. */
  lemma PlanUnfiltered(saveDir: string, all: Remotes, o: Options)
    ensures Plan(saveDir, Index(None, None), Some(all), Unset, o) == Ok(Calls(all, saveDir, o))
  {
    SelectedAll(all);
  }

  /** The items of a two-item dictionary that the filter keeps. */
  lemma SelectedPair(p: (string, Remote), q: (string, Remote), f: Partial)
    ensures Selected([p, q], f) == (if Keep(p.0, f) then [p] else []) + (if Keep(q.0, f) then [q] else [])
  {
    var all := [p, q];
    assert all[..1] == [p] && all[..1][..0] == [];
  }

  /** The calls for one and for two items. */
  lemma CallsPair(p: (string, Remote), q: (string, Remote), saveDir: string, o: Options)
    ensures Calls([p], saveDir, o) == [Dispatch(p.1, saveDir, o)]
    ensures Calls([p, q], saveDir, o) == [Dispatch(p.1, saveDir, o), Dispatch(q.1, saveDir, o)]
  {
    var none: Remotes := [];
    assert [p][..0] == none && [p, q][..1] == [p];
    assert Calls(none, saveDir, o) + [Dispatch(p.1, saveDir, o)] == [Dispatch(p.1, saveDir, o)];
  }

  /** An explicit list of two of three keys selects those two, in dictionary order. */
  lemma PartialScenario(saveDir: string, b: string, c: string, d: string, x: Remote, y: Remote, z: Remote, o: Options)
    requires b != c && c != d && b != d && c != IndexKey
    ensures Plan(saveDir, Index(None, None), Some([(b, x), (c, y), (d, z)]), Keys([b, d]), o)
         == Ok([Dispatch(x, saveDir, o), Dispatch(z, saveDir, o)])
  {
    var all := [(b, x), (c, y), (d, z)];
    var f := Keys([b, d]);
    assert ValidFilter(f, all) by {
      assert KeysOf(all) == [b, c, d];
    }
    assert Selected(all, f) == [(b, x), (d, z)] by {
      assert all[..2] == [(b, x), (c, y)];
      SelectedPair((b, x), (c, y), f);
    }
    CallsPair((b, x), (d, z), saveDir, o);
  }

  /** The index's partial list applies when none is given. */
  lemma IndexPartialScenario(saveDir: string, b: string, d: string, x: Remote, z: Remote, o: Options)
    requires b != d && b != IndexKey && d != IndexKey
    ensures Plan(saveDir, Index(None, Some([b])), Some([(b, x), (d, z)]), Unset, o) == Ok([Dispatch(x, saveDir, o)])
  {
    var two := [(b, x), (d, z)];
    var f := Keys([b]);
    assert WithIndex(Some(two), Index(None, Some([b]))) == two;
    assert Effective(Unset, Index(None, Some([b]))) == f;
    assert ValidFilter(f, two) by {
      assert KeysOf(two) == [b, d];
    }
    assert Selected(two, f) == [(b, x)] by {
      SelectedPair((b, x), (d, z), f);
      assert Keep(b, f) && !Keep(d, f);
    }
    CallsPair((b, x), (d, z), saveDir, o);
  }

  /** An explicit list replaces the index's partial list. */
  lemma ExplicitOverIndexScenario(saveDir: string, b: string, d: string, x: Remote, z: Remote, o: Options)
    requires b != d && b != IndexKey && d != IndexKey
    ensures Plan(saveDir, Index(None, Some([b])), Some([(b, x), (d, z)]), Keys([d]), o) == Ok([Dispatch(z, saveDir, o)])
  {
    var two := [(b, x), (d, z)];
    var f := Keys([d]);
    assert ValidFilter(f, two) by {
      assert KeysOf(two) == [b, d];
    }
    assert Selected(two, f) == [(d, z)] by {
      SelectedPair((b, x), (d, z), f);
      assert !Keep(b, f) && Keep(d, f);
    }
    CallsPair((d, z), (b, x), saveDir, o);
  }

  /** The index's own remote is fetched alone, or after the given remotes. */
  lemma RemoteIndexScenario(saveDir: string, b: string, x: Remote, own: Remote, o: Options)
    requires b != IndexKey
    ensures Plan(saveDir, Index(Some(own), None), None, Unset, o) == Ok([Dispatch(own, saveDir, o)])
    ensures Plan(saveDir, Index(Some(own), None), Some([(b, x)]), Unset, o)
         == Ok([Dispatch(x, saveDir, o), Dispatch(own, saveDir, o)])
  {
    var alone := [(IndexKey, own)];
    var both := [(b, x), (IndexKey, own)];
    assert WithIndex(None, Index(Some(own), None)) == alone;
    assert WithIndex(Some([(b, x)]), Index(Some(own), None)) == both by {
      assert Put([(b, x)], IndexKey, own) == [(b, x)] + Put([], IndexKey, own);
    }
    SelectedAll(alone);
    SelectedAll(both);
    CallsPair((IndexKey, own), (b, x), saveDir, o);
    CallsPair((b, x), (IndexKey, own), saveDir, o);
  }

  /** A remote under `"index"` is fetched although the list names only the other key. */
  lemma IndexKeyScenario(saveDir: string, k: string, x: Remote, y: Remote, o: Options)
    requires k != IndexKey
    ensures Plan(saveDir, Index(None, None), Some([(IndexKey, x), (k, y)]), Keys([k]), o)
         == Ok([Dispatch(x, saveDir, o), Dispatch(y, saveDir, o)])
  {
    assert KeysOf([(IndexKey, x), (k, y)]) == [IndexKey, k];
    SelectedPair((IndexKey, x), (k, y), Keys([k]));
    CallsPair((IndexKey, x), (k, y), saveDir, o);
  }

  // ---------------------------------------------------------------------------
  // The calls the orchestrator makes

  /** The orchestrator as the helpers' mocks observe it: the calls made, in order. */
  class Dispatcher {
    var log: seq<Action>

    constructor ()
      ensures log == []
    {
      log := [];
    }

    /**
     * `downloader(...)`: validate the filter before any call, raising the
     * `ValueError` with nothing logged; then make one call per selected remote.
     * Creating `save_dir` and showing `info_message` are not observed here.
     */
    method Downloader(saveDir: string, index: Index, remotes: Option<Remotes>, partial: Partial, o: Options)
      returns (r: Result<(), ConfigError>)
      modifies this
      ensures var plan := Plan(saveDir, index, remotes, partial, o);
        && (plan.Err? ==> r == Err(plan.error) && log == old(log))
        && (plan.Ok? ==> r == Ok(()) && log == old(log) + plan.value)
    {
      var all := WithIndex(remotes, index);
      var f := Effective(partial, index);
      if !ValidFilter(f, all) {
        r := Err(NotASubset(KeysOf(all)));
        return;
      }
      var calls := CallsFor(all, f, saveDir, o);
      log := log + calls;
      r := Ok(());
    }
  }

  /** The calls for the items the filter keeps, made one item at a time. */
  method CallsFor(all: Remotes, f: Partial, saveDir: string, o: Options) returns (calls: seq<Action>)
    ensures calls == Calls(Selected(all, f), saveDir, o)
  {
    calls := [];
    var i := 0;
    while i < |all|
      invariant 0 <= i <= |all|
      invariant calls == Calls(Selected(all[..i], f), saveDir, o)
    {
      DispatchStep(all, i, f, saveDir, o);
      if Keep(all[i].0, f) {
        calls := calls + [Dispatch(all[i].1, saveDir, o)];
      }
      i := i + 1;
    }
    assert all[..|all|] == all;
  }

  /** One more item adds its call exactly when the filter keeps it. */
  lemma DispatchStep(all: Remotes, i: nat, f: Partial, saveDir: string, o: Options)
    requires i < |all|
    ensures Calls(Selected(all[..i + 1], f), saveDir, o)
         == Calls(Selected(all[..i], f), saveDir, o) + (if Keep(all[i].0, f) then [Dispatch(all[i].1, saveDir, o)] else [])
  {
    assert all[..i + 1][..i] == all[..i];
    var sel := Selected(all[..i], f);
    if Keep(all[i].0, f) {
      var t := sel + [all[i]];
      assert Selected(all[..i + 1], f) == t;
      assert t[..|t| - 1] == sel && t[|t| - 1] == all[i];
      assert Calls(t, saveDir, o) == Calls(sel, saveDir, o) + [Dispatch(all[i].1, saveDir, o)];
    } else {
      assert Selected(all[..i + 1], f) == sel;
    }
  }

  // ---------------------------------------------------------------------------
  // What the helpers do

  /** The network, the digest and the two archive readers the helpers consult. */
  datatype Env = Env(fetch: Fetch, hash: Hash, readZip: ArchiveReader, readTar: ArchiveReader)

  /** How `download_from_remote` returned: the file was already there, matched its checksum, or did not and a warning was issued. */
  datatype Outcome = Skipped(path: string) | Verified(path: string) | Warned(path: string, computed: string)

  /** `save_dir`, or `os.path.join(save_dir, destination_dir)` when the remote names one. */
  function RemoteDir(remote: Remote, saveDir: string): string
  {
    if remote.destinationDir.Some? then Join(saveDir, remote.destinationDir.value) else saveDir
  }

  /** Where a remote is saved: `os.path.join(save_dir, destination_dir or "", filename)`. */
  function RemotePath(remote: Remote, saveDir: string): string
  {
    Join(RemoteDir(remote, saveDir), remote.filename)
  }

  /** The path is `os.path.join(save_dir, destination_dir or "", filename)`: with no destination directory, the file goes straight into `save_dir`. */
  lemma RemotePathJoin(remote: Remote, saveDir: string)
    ensures RemotePath(remote, saveDir) == Join3(saveDir, remote.destinationDir.GetOr(""), remote.filename)
  {
    JoinEmpty(saveDir, remote.filename);
  }

  /** `os.path.join(a, "", b) == os.path.join(a, b)`. */
  lemma JoinEmpty(a: string, b: string)
    ensures Join3(a, "", b) == Join(a, b)
  {
    if !IsAbsolute(b) && a != "" && a[|a| - 1] != '/' {
      assert Join(a, "") == a + "/";
      assert (a + "/")[|a + "/"| - 1] == '/';
    }
  }

  /**
   * `download_from_remote(remote, save_dir, force_overwrite,
   * allow_invalid_checksum)`: a file already at the path is kept, unchecked,
   * unless `force_overwrite`; otherwise the URL is fetched into the path
   * ("Failed to download" when that fails) and its digest compared with the
   * remote's. A mismatch raises and keeps the file, or, when invalid checksums
   * are allowed, only warns.
   */
  function FetchRemote(fs: Fs, env: Env, remote: Remote, saveDir: string, force: bool, allowInvalid: bool)
    : (r: (Result<Outcome, IoError>, Fs))
    ensures r.0.Ok? ==> r.0.value.path == RemotePath(remote, saveDir)
  {
    var path := RemotePath(remote, saveDir);
    if fs.Exists(path) && !force then (Ok(Skipped(path)), fs)
    else
      match Retrieve(fs, env.fetch, remote.url, path)
      case Err(e) => (Err(e), fs)
      case Ok(fs') =>
        var computed := env.hash(fs'.files[path]);
        if computed == remote.checksum then (Ok(Verified(path)), fs')
        else if allowInvalid then (Ok(Warned(path, computed)), fs')
        else (Err(ChecksumMismatch(path, computed, remote.checksum)), fs')
  }

  /**
   * The outcomes of a transfer: a failed fetch raises `TransferFailed` and
   * changes nothing; a successful one writes the fetched bytes at the path and
   * then verifies exactly when their digest is the expected one, raises the
   * checksum error naming both digests when it is not, or warns instead when
   * invalid checksums are allowed.
   */
  lemma FetchOutcomes(fs: Fs, env: Env, remote: Remote, saveDir: string, force: bool, allowInvalid: bool)
    requires force || !fs.Exists(RemotePath(remote, saveDir))
    ensures var path := RemotePath(remote, saveDir);
      var r := FetchRemote(fs, env, remote, saveDir, force, allowInvalid);
      && (env.fetch(remote.url).None? ==> r == (Err(TransferFailed(remote.url)), fs))
      && (env.fetch(remote.url).Some? && path !in fs.dirs ==>
            var body := env.fetch(remote.url).value;
            && r.1 == fs.(files := fs.files[path := body])
            && (r.0 == Ok(Verified(path)) <==> env.hash(body) == remote.checksum)
            && (env.hash(body) != remote.checksum && !allowInvalid ==>
                  r.0 == Err(ChecksumMismatch(path, env.hash(body), remote.checksum)))
            && (env.hash(body) != remote.checksum && allowInvalid ==>
                  r.0 == Ok(Warned(path, env.hash(body)))))
  {
  }

  /**
   * A second call without `force_overwrite` after a successful one neither
   * fetches nor changes anything: it returns the same path.
   */
  lemma FetchTwice(fs: Fs, env: Env, fetch: Fetch, remote: Remote, saveDir: string, force: bool,
                   allowInvalid: bool, allowInvalid': bool)
    requires FetchRemote(fs, env, remote, saveDir, force, allowInvalid).0.Ok?
    ensures var first := FetchRemote(fs, env, remote, saveDir, force, allowInvalid);
      FetchRemote(first.1, env.(fetch := fetch), remote, saveDir, false, allowInvalid')
        == (Ok(Skipped(first.0.value.path)), first.1)
  {
    var path := RemotePath(remote, saveDir);
    var first := FetchRemote(fs, env, remote, saveDir, force, allowInvalid);
    assert first.1.Exists(path);
  }

  /**
   * The helper a call names, run on the file system: fetch, then extract an
   * archive into the directory of the path the fetch returned, as
   * `unzip(path)` and `untar(path)` do.
   */
  function Perform(fs: Fs, env: Env, a: Action): (r: (Result<Outcome, IoError>, Fs))
  {
    var fetched := FetchRemote(fs, env, a.remote, a.saveDir, a.forceOverwrite, a.allowInvalidChecksum);
    if a.DownloadFromRemote? || fetched.0.Err? then fetched
    else
      var reader := if a.DownloadZipFile? then env.readZip else env.readTar;
      var extracted := ExtractArchive(fetched.1, reader, fetched.0.value.path, Dirname(fetched.0.value.path), a.cleanup);
      if extracted.0.Err? then (Err(extracted.0.error), extracted.1) else (fetched.0, extracted.1)
  }

  /** The calls in order, stopping at the first that raises: the outcome of each, or that error. */
  function Run(fs: Fs, env: Env, actions: seq<Action>): (r: (Result<seq<Outcome>, IoError>, Fs))
    ensures r.0.Ok? ==> |r.0.value| == |actions|
  {
    if |actions| == 0 then (Ok([]), fs)
    else
      var prev := Run(fs, env, actions[..|actions| - 1]);
      if prev.0.Err? then prev
      else
        var step := Perform(prev.1, env, actions[|actions| - 1]);
        if step.0.Err? then (Err(step.0.error), step.1) else (Ok(prev.0.value + [step.0.value]), step.1)
  }

  /** Fail-fast: once a prefix of the calls raises, the run raises that error and goes no further. */
  lemma {:induction false} RunStops(fs: Fs, env: Env, actions: seq<Action>, k: nat)
    requires k <= |actions| && Run(fs, env, actions[..k]).0.Err?
    ensures Run(fs, env, actions) == Run(fs, env, actions[..k])
    decreases |actions|
  {
    if k < |actions| {
      var init := actions[..|actions| - 1];
      assert init[..k] == actions[..k];
      RunStops(fs, env, init, k);
    } else {
      assert actions[..k] == actions;
    }
  }

  /** `downloader(...)` run for real: the `ValueError`, or the calls of the plan performed in order. */
  function DownloaderRun(fs: Fs, env: Env, saveDir: string, index: Index, remotes: Option<Remotes>,
                         partial: Partial, o: Options): (r: (Result<seq<Outcome>, DownloadError>, Fs))
    ensures Plan(saveDir, index, remotes, partial, o).Err? ==> r.1 == fs && r.0.Err? && r.0.error.Config?
  {
    match Plan(saveDir, index, remotes, partial, o)
    case Err(e) => (Err(Config(e)), fs)
    case Ok(plan) =>
      var run := Run(fs, env, plan);
      if run.0.Err? then (Err(Io(run.0.error)), run.1) else (Ok(run.0.value), run.1)
  }

  /**
   * One plain remote whose served bytes do not match its checksum, fetched
   * into an empty place: the orchestrator raises the checksum error, or
   * completes with a warning when invalid checksums are allowed, whatever
   * `cleanup` and `force_overwrite` are.
   */
  lemma ServedFileMismatch(fs: Fs, env: Env, saveDir: string, index: Index, key: string, remote: Remote, o: Options)
    requires index == Index(None, None)
    requires KindOf(remote.filename) == Plain
    requires !fs.Exists(RemotePath(remote, saveDir))
    requires env.fetch(remote.url).Some? && env.hash(env.fetch(remote.url).value) != remote.checksum
    ensures var path := RemotePath(remote, saveDir);
      var computed := env.hash(env.fetch(remote.url).value);
      var r := DownloaderRun(fs, env, saveDir, index, Some([(key, remote)]), Unset, o).0;
      && (!o.allowInvalidChecksum ==> r == Err(Io(ChecksumMismatch(path, computed, remote.checksum))))
      && (o.allowInvalidChecksum ==> r == Ok([Warned(path, computed)]))
  {
    var call := DownloadFromRemote(remote, saveDir, o.forceOverwrite, o.allowInvalidChecksum);
    PlanSingle(saveDir, key, remote, o);
    RunSingle(fs, env, call);
    FetchOutcomes(fs, env, remote, saveDir, o.forceOverwrite, o.allowInvalidChecksum);
  }

  /** An index-less, unfiltered dictionary of one remote plans exactly that remote's call. */
  lemma PlanSingle(saveDir: string, key: string, remote: Remote, o: Options)
    ensures Plan(saveDir, Index(None, None), Some([(key, remote)]), Unset, o) == Ok([Dispatch(remote, saveDir, o)])
  {
    var all: Remotes := [(key, remote)];
    assert all[..0] == [];
    assert Selected(all, Unset) == all;
    var none: seq<Action> := [];
    assert none + [Dispatch(remote, saveDir, o)] == [Dispatch(remote, saveDir, o)];
    assert Calls(all, saveDir, o) == [Dispatch(remote, saveDir, o)];
  }

  /** A run of one call raises what the call raises, or lists the call's one outcome. */
  lemma RunSingle(fs: Fs, env: Env, a: Action)
    ensures var step := Perform(fs, env, a);
      Run(fs, env, [a]) == if step.0.Err? then (Err(step.0.error), step.1) else (Ok([step.0.value]), step.1)
  {
    assert [a][..0] == [];
    var none: seq<Outcome> := [];
    var step := Perform(fs, env, a);
    if step.0.Ok? {
      assert none + [step.0.value] == [step.0.value];
    }
  }

  // ---------------------------------------------------------------------------
  // Idempotence

  /** Every path that was on disk still is: files are only added or rewritten, directories kept. */
  predicate Grows(fs: Fs, fs': Fs)
  {
    (forall p :: p in fs.files ==> p in fs'.files) && fs.dirs <= fs'.dirs
  }

  lemma GrowsTrans(fs: Fs, fs': Fs, fs'': Fs)
    requires Grows(fs, fs') && Grows(fs', fs'')
    ensures Grows(fs, fs'')
  {
  }

  /** Whether a call removes its archive afterwards. */
  predicate Cleans(a: Action)
  {
    !a.DownloadFromRemote? && a.cleanup
  }

  /** A fetch only adds or rewrites the remote's file. */
  lemma FetchGrows(fs: Fs, env: Env, remote: Remote, saveDir: string, force: bool, allowInvalid: bool)
    ensures Grows(fs, FetchRemote(fs, env, remote, saveDir, force, allowInvalid).1)
  {
  }

  /** Extraction without `cleanup` only adds or rewrites files. */
  lemma ExtractGrows(fs: Fs, reader: ArchiveReader, archive: string, saveDir: string)
    ensures Grows(fs, ExtractArchive(fs, reader, archive, saveDir, false).1)
  {
    var extracted := ExtractArchive(fs, reader, archive, saveDir, false);
    if extracted.0.Ok? {
      var members := reader(fs.files[archive]).value;
      forall p | p in fs.files
        ensures p in extracted.1.files
      {
        if Changed(fs.files, extracted.1.files, p) && p != archive {
          assert IsMemberPath(p, saveDir, members);
          var m :| m in members && p == Join(saveDir, m.name);
        }
      }
    }
  }

  /**
   * An archive whose file name holds no `/` is extracted into the remote's
   * directory: `save_dir`, or `destination_dir` under it.
   */
  lemma ExtractsIntoRemoteDir(remote: Remote, saveDir: string)
    requires RemoteDir(remote, saveDir) != "" && RemoteDir(remote, saveDir)[|RemoteDir(remote, saveDir)| - 1] != '/'
    requires remote.filename != "" && '/' !in remote.filename
    ensures Dirname(RemotePath(remote, saveDir)) == RemoteDir(remote, saveDir)
  {
    DirnameJoin(RemoteDir(remote, saveDir), remote.filename);
  }

  /** Without `cleanup`, a call only adds or rewrites files, whether it succeeds or raises. */
  lemma PerformGrows(fs: Fs, env: Env, a: Action)
    requires !Cleans(a)
    ensures Grows(fs, Perform(fs, env, a).1)
  {
    var fetched := FetchRemote(fs, env, a.remote, a.saveDir, a.forceOverwrite, a.allowInvalidChecksum);
    FetchGrows(fs, env, a.remote, a.saveDir, a.forceOverwrite, a.allowInvalidChecksum);
    if !a.DownloadFromRemote? && fetched.0.Ok? {
      var reader := if a.DownloadZipFile? then env.readZip else env.readTar;
      var path := fetched.0.value.path;
      var extracted := ExtractArchive(fetched.1, reader, path, Dirname(path), false);
      ExtractGrows(fetched.1, reader, path, Dirname(path));
      assert Perform(fs, env, a).1 == extracted.1;
      GrowsTrans(fs, fetched.1, extracted.1);
    }
  }

  /** Without `cleanup`, a successful call leaves its remote's file on disk. */
  lemma PerformLeavesFile(fs: Fs, env: Env, a: Action)
    requires !Cleans(a) && Perform(fs, env, a).0.Ok?
    ensures Perform(fs, env, a).1.Exists(RemotePath(a.remote, a.saveDir))
  {
    var fetched := FetchRemote(fs, env, a.remote, a.saveDir, a.forceOverwrite, a.allowInvalidChecksum);
    assert fetched.1.Exists(RemotePath(a.remote, a.saveDir));
  }

  /** Whether no call cleans up or forces a transfer. */
  predicate Gentle(actions: seq<Action>)
  {
    forall i :: 0 <= i < |actions| ==> !Cleans(actions[i]) && !actions[i].forceOverwrite
  }

  lemma GentleInit(actions: seq<Action>)
    requires Gentle(actions) && |actions| > 0
    ensures Gentle(actions[..|actions| - 1])
  {
    var init := actions[..|actions| - 1];
    forall i | 0 <= i < |init|
      ensures !Cleans(init[i]) && !init[i].forceOverwrite
    {
      assert init[i] == actions[i];
    }
  }

  /** Whether every call's file is on disk. */
  predicate HasFiles(fs: Fs, actions: seq<Action>)
  {
    forall i :: 0 <= i < |actions| ==> fs.Exists(RemotePath(actions[i].remote, actions[i].saveDir))
  }

  lemma GrowsKeepsFiles(fs: Fs, fs': Fs, actions: seq<Action>)
    requires Grows(fs, fs') && HasFiles(fs, actions)
    ensures HasFiles(fs', actions)
  {
  }

  lemma HasFilesSnoc(fs: Fs, actions: seq<Action>)
    requires |actions| > 0 && HasFiles(fs, actions[..|actions| - 1])
    requires fs.Exists(RemotePath(actions[|actions| - 1].remote, actions[|actions| - 1].saveDir))
    ensures HasFiles(fs, actions)
  {
    var init := actions[..|actions| - 1];
    forall i | 0 <= i < |actions|
      ensures fs.Exists(RemotePath(actions[i].remote, actions[i].saveDir))
    {
      if i < |init| {
        assert actions[i] == init[i];
      }
    }
  }

  /** Without `cleanup`, a run only adds or rewrites files. */
  lemma {:induction false} RunGrows(fs: Fs, env: Env, actions: seq<Action>)
    requires Gentle(actions)
    ensures Grows(fs, Run(fs, env, actions).1)
  {
    if |actions| > 0 {
      var init := actions[..|actions| - 1];
      GentleInit(actions);
      RunGrows(fs, env, init);
      var prev := Run(fs, env, init);
      if prev.0.Ok? {
        PerformGrows(prev.1, env, actions[|actions| - 1]);
      }
    }
  }

  /** After a successful run without `cleanup`, every call's file is on disk. */
  lemma {:induction false} RunLeavesFiles(fs: Fs, env: Env, actions: seq<Action>)
    requires Gentle(actions) && Run(fs, env, actions).0.Ok?
    ensures HasFiles(Run(fs, env, actions).1, actions)
  {
    if |actions| > 0 {
      var init := actions[..|actions| - 1];
      var last := actions[|actions| - 1];
      GentleInit(actions);
      RunLeavesFiles(fs, env, init);
      var prev := Run(fs, env, init);
      var next := Perform(prev.1, env, last);
      assert Run(fs, env, actions).1 == next.1;
      PerformGrows(prev.1, env, last);
      PerformLeavesFile(prev.1, env, last);
      GrowsKeepsFiles(prev.1, next.1, init);
      HasFilesSnoc(next.1, actions);
    }
  }

  /**
   * When every call's file is already on disk and nothing is forced or cleaned
   * up, a run never consults the network: any other answer from it gives the
   * same outcome and the same disk.
   */
  lemma {:induction false} RunOffline(fs: Fs, env: Env, fetch: Fetch, actions: seq<Action>)
    requires Gentle(actions) && HasFiles(fs, actions)
    ensures Run(fs, env, actions) == Run(fs, env.(fetch := fetch), actions)
  {
    if |actions| > 0 {
      var init := actions[..|actions| - 1];
      var last := actions[|actions| - 1];
      GentleInit(actions);
      assert HasFiles(fs, init) by {
        forall i | 0 <= i < |init|
          ensures fs.Exists(RemotePath(init[i].remote, init[i].saveDir))
        {
          assert init[i] == actions[i];
        }
      }
      RunOffline(fs, env, fetch, init);
      RunGrows(fs, env, init);
      var prev := Run(fs, env, init);
      assert fs.Exists(RemotePath(last.remote, last.saveDir));
      assert prev.1.Exists(RemotePath(last.remote, last.saveDir));
    }
  }

  /**
   * Downloading twice without `force_overwrite` or `cleanup`: the second run
   * makes no transfer, so its outcome does not depend on the network.
   */
  lemma DownloadTwiceOffline(fs: Fs, env: Env, fetch: Fetch, actions: seq<Action>)
    requires Gentle(actions) && Run(fs, env, actions).0.Ok?
    ensures var first := Run(fs, env, actions).1;
      Run(first, env, actions) == Run(first, env.(fetch := fetch), actions)
  {
    RunLeavesFiles(fs, env, actions);
    RunOffline(Run(fs, env, actions).1, env, fetch, actions);
  }

  // ---------------------------------------------------------------------------
  // Running the helpers on the disk

  /** `download_from_remote(...)` on the disk. */
  method FetchRemoteOn(disk: Disk, env: Env, remote: Remote, saveDir: string, force: bool, allowInvalid: bool)
    returns (r: Result<Outcome, IoError>)
    modifies disk
    ensures (r, disk.State()) == FetchRemote(old(disk.State()), env, remote, saveDir, force, allowInvalid)
  {
    var path := RemotePath(remote, saveDir);
    if disk.State().Exists(path) && !force {
      r := Ok(Skipped(path));
      return;
    }
    var transfer := disk.UrlRetrieve(env.fetch, remote.url, path);
    if transfer.Err? {
      r := Err(transfer.error);
      return;
    }
    var computed := disk.Md5(env.hash, path);
    if computed.value == remote.checksum {
      r := Ok(Verified(path));
    } else if allowInvalid {
      r := Ok(Warned(path, computed.value));
    } else {
      r := Err(ChecksumMismatch(path, computed.value, remote.checksum));
    }
  }

  /** `download_zip_file`, `download_tar_file` or `download_from_remote` on the disk. */
  method PerformOn(disk: Disk, env: Env, a: Action) returns (r: Result<Outcome, IoError>)
    modifies disk
    ensures (r, disk.State()) == Perform(old(disk.State()), env, a)
  {
    r := FetchRemoteOn(disk, env, a.remote, a.saveDir, a.forceOverwrite, a.allowInvalidChecksum);
    if a.DownloadFromRemote? || r.Err? {
      return;
    }
    var reader := if a.DownloadZipFile? then env.readZip else env.readTar;
    var extracted := Extract(disk, reader, r.value.path, Dirname(r.value.path), a.cleanup);
    if extracted.Err? {
      r := Err(extracted.error);
    }
  }

  /** The calls performed one after another, stopping at the first error. */
  method RunOn(disk: Disk, env: Env, actions: seq<Action>) returns (r: Result<seq<Outcome>, IoError>)
    modifies disk
    ensures (r, disk.State()) == Run(old(disk.State()), env, actions)
  {
    var outcomes: seq<Outcome> := [];
    var i := 0;
    while i < |actions|
      invariant 0 <= i <= |actions|
      invariant (Ok(outcomes), disk.State()) == Run(old(disk.State()), env, actions[..i])
    {
      assert actions[..i + 1][..i] == actions[..i];
      var step := PerformOn(disk, env, actions[i]);
      if step.Err? {
        r := Err(step.error);
        RunStops(old(disk.State()), env, actions, i + 1);
        return;
      }
      outcomes := outcomes + [step.value];
      i := i + 1;
    }
    assert actions[..|actions|] == actions;
    r := Ok(outcomes);
  }

  /** `downloader(...)` on the disk: validate and plan, then run the calls. */
  method DownloaderOn(disk: Disk, env: Env, saveDir: string, index: Index, remotes: Option<Remotes>,
                      partial: Partial, o: Options) returns (r: Result<seq<Outcome>, DownloadError>)
    modifies disk
    ensures (r, disk.State()) == DownloaderRun(old(disk.State()), env, saveDir, index, remotes, partial, o)
  {
    var plan := Plan(saveDir, index, remotes, partial, o);
    if plan.Err? {
      r := Err(Config(plan.error));
      return;
    }
    var run := RunOn(disk, env, plan.value);
    r := if run.Err? then Err(Io(run.error)) else Ok(run.value);
  }
}
