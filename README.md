# neomirdata: dataset acquisition and index building, in Dafny

This project models the part of neomirdata that fetches datasets and builds
their indexes. It covers:

- **Two generations of the fetch–verify–extract helpers.**
  `mir_dataset_loaders/download_utils.py` is module `LoaderDownload`;
  `mir_datasets/download/utils.py` is module `DatasetsDownload`. Each one:
  - computes a save path under `data_home` or `MIR_DATASETS_DIR`;
  - fetches the remote file (the older one only when the file is absent or
    `clobber` is set);
  - always compares the file's MD5 with the expected checksum;
  - unpacks zip and tar archives, removing the archive only under `cleanup`.
    `cleanup` defaults to False in the older file and True in the newer one.
- **The presence validator** of `mir_dataset_loaders/load_utils.py`
  (module `LoadUtils`). For each track of an index, it lists the files that
  do not exist.
- **The two index builders.** `scripts/make_orchset_index.py` is module
  `OrchsetIndex`; `scripts/make_ikala_index.py` is module `IkalaIndex`. They
  turn file names and CSV rows into index records: track ids,
  composer/work/excerpt, normalised instruments, TRUE/FALSE columns, singer
  map, song id and section, and relative data-file paths with checksums.
- **The orchestrating `downloader` of `mirdata.download_utils`** (module
  `Downloader`). Its selection and dispatch rules are the ones
  `tests/test_download_utils.py` pins down. The implementation is not part of
  this model.

Shared modules:

- `Wrappers` holds `Option` and `Result`.
- `Text` holds Python's `str.split`, `'-'.join`, `str.lower`,
  `list(set(...))` and `sorted`.
- `Paths` holds POSIX `os.path.join` and `MIR_DATASETS_DIR`.
- `Storage` holds the file system and the `Disk` class that the helpers
  mutate:
  - files are a map from path to bytes, plus a set of directories;
  - the chunked `md5` loop is a method proved against a pure digest;
  - `urlretrieve`, `extractall` and `os.remove` are methods.

The network (`Fetch`), the MD5 digest (`Hash`), the zip and tar member
readers, `csv.reader` and `glob.glob` are function-typed parameters. Each
Python function that changes the disk is a method on `Disk`, and its
`ensures` ties the result and the new disk state to a pure function. The
properties are then proved as lemmas about those functions.

## Model

| member | source | states |
|---|---|---|
| Storage.Disk.MakeDirs | mir_dataset_loaders/download_utils.py:36-37 | `os.makedirs` raises `FileNotFoundError` for the empty path and `FileExistsError` for an existing one, changing nothing; otherwise it adds exactly that directory and leaves every file as it was |
| Storage.Disk.Remove | mir_dataset_loaders/download_utils.py:130-131 | `os.remove` deletes exactly that one path and nothing else |
| Storage.Disk.Md5 | mir_dataset_loaders/download_utils.py:42-59 | the 4096-byte chunk loop yields the digest of the whole file; a missing path raises |
| Storage.FileMd5 | mir_datasets/download/utils.py:16-21 | the digest exists exactly when the path is a file, and it is the hash of that file's bytes |
| Storage.Read | scripts/make_orchset_index.py:35 | opening succeeds exactly for an existing file and yields its bytes |
| Storage.Retrieve | mir_dataset_loaders/download_utils.py:103-104 | in the model, the fetch succeeds when the URL answers and the path is not a directory; the fetched bytes then replace the file, and a failed fetch raises naming the URL |
| Storage.Disk.UrlRetrieve | mir_datasets/download/utils.py:58-61 | the disk becomes what `Retrieve` says; on failure it is unchanged |
| Storage.DownloadPath | mir_dataset_loaders/download_utils.py:93-96 | the path is the file name under `data_home`, or under `MIR_DATASETS_DIR` when it is None |
| Storage.Verify | mir_dataset_loaders/download_utils.py:106-112 | it passes exactly when the file's digest equals the expected one and then returns the path; a mismatch raises naming the path, the computed digest and the expected digest |
| Storage.VerifyChecksum | mir_datasets/download/utils.py:64-70 | the checksum gate on the disk, equal to `Verify` |
| Storage.Extracted | mir_dataset_loaders/download_utils.py:128 | every member lands under the save directory; every other path keeps its presence and its bytes |
| Storage.ExtractArchive | mir_dataset_loaders/download_utils.py:127-131 | it succeeds exactly when the archive exists and can be read; a failure changes nothing; with `cleanup` the archive is gone, without it the archive stays; the only paths that change are the archive and the member paths under the save directory |
| Storage.Disk.ExtractAll | mir_datasets/download/utils.py:74-75 | the disk's files become `Extracted` of the old files |
| Storage.Extract | mir_datasets/download/utils.py:82-86 | result and new disk equal `ExtractArchive` |
| Paths.Join | mir_dataset_loaders/load_utils.py:9-11 | an absolute second part wins; otherwise the result starts with the first part and ends with the second |
| Paths.JoinInjective | mir_dataset_loaders/load_utils.py:11 | under one directory, distinct relative names give distinct paths |
| Paths.Dirname | tests/test_download_utils.py:410-421 | `os.path.dirname` is a prefix of the path, empty exactly when the path holds no `/` |
| Paths.DirnameJoin | tests/test_download_utils.py:410-421 | the dirname of a `/`-free name joined under a directory not ending in `/` is that directory, so an archive is extracted beside itself |
| Paths.StripSlashes | tests/test_download_utils.py:410-421 | `rstrip('/')` is a prefix that does not end in `/`, and only slashes were removed |
| LoaderDownload.GetSavePath | mir_dataset_loaders/download_utils.py:31-39 | an empty `data_home` raises `FileNotFoundError` (the empty path never exists, and `os.makedirs("")` raises) and changes nothing; otherwise it returns `data_home`, or `MIR_DATASETS_DIR` when it is None, and the path then exists; an existing path leaves the disk untouched; otherwise exactly that directory is added |
| LoaderDownload.Download | mir_dataset_loaders/download_utils.py:93-112 | on success it returns the download path. Without a transfer the disk is unchanged. A failed fetch raises and changes nothing. A transfer writes the fetched bytes. A checksum error names the path, the digest of the file now on disk and the expected digest, and the file is kept |
| LoaderDownload.ChecksumAlwaysChecked | mir_dataset_loaders/download_utils.py:106-112 | whether or not the transfer was skipped, the call returns normally exactly when the file on disk afterwards has the expected digest |
| LoaderDownload.NoTransferWhenPresent | mir_dataset_loaders/download_utils.py:98-104 | a present file with `clobber` unset makes the outcome independent of the network and leaves the disk unchanged |
| LoaderDownload.DownloadIdempotent | mir_dataset_loaders/download_utils.py:84-86 | repeating a successful download without `clobber` gives the same result and the same disk, whatever the network does |
| LoaderDownload.DownloadFromRemote | mir_dataset_loaders/download_utils.py:69-112 | the method on the disk (defaults `data_home=None`, `clobber=False`) yields exactly `Download`'s result and new disk |
| LoaderDownload.Unzip | mir_dataset_loaders/download_utils.py:115-131 | defaults to `cleanup=False`; result and new disk equal `ExtractArchive` |
| LoaderDownload.Untar | mir_dataset_loaders/download_utils.py:134-150 | defaults to `cleanup=False`; result and new disk equal `ExtractArchive` |
| DatasetsDownload.Download | mir_datasets/download/utils.py:52-70 | the fetch always happens. In the model, the call succeeds when the fetch succeeds and the fetched bytes have the expected digest, and it then returns the path. The fetched bytes replace the file. A checksum error keeps the fetched file and names both digests |
| DatasetsDownload.PreviousContentsIrrelevant | mir_datasets/download/utils.py:52-61 | what was at the download path before the call affects neither the outcome nor the disk afterwards |
| DatasetsDownload.DownloadFromRemote | mir_datasets/download/utils.py:31-70 | the method on the disk yields exactly `Download`'s result and new disk |
| DatasetsDownload.Unzip | mir_datasets/download/utils.py:73-78 | defaults to `cleanup=True`; result and new disk equal `ExtractArchive`, so after a default call the archive is absent |
| DatasetsDownload.Untar | mir_datasets/download/utils.py:81-86 | defaults to `cleanup=True`; result and new disk equal `ExtractArchive` |
| LoadUtils.GetLocalPath | mir_dataset_loaders/load_utils.py:7-11 | `rel_path` under `data_home`, or under `MIR_DATASETS_DIR` when it is None |
| LoadUtils.MissingFiles | mir_dataset_loaders/load_utils.py:18-21 | a track's list is built exactly when every file key is in the track and locates. It has at most one entry per key. It holds every located path that does not exist, and only such paths |
| LoadUtils.MissingFilesEmptyIff | mir_dataset_loaders/load_utils.py:18-21 | a track's list is empty exactly when every one of its files exists |
| LoadUtils.MissingFilesStep | mir_dataset_loaders/load_utils.py:18-21 | one turn of the inner loop appends the located path exactly when it does not exist, or raises |
| LoadUtils.TrackMissingFiles | mir_dataset_loaders/load_utils.py:17-21 | the inner loop, with the path computed as written at line 19, yields exactly `MissingFiles` |
| LoadUtils.Collect | mir_dataset_loaders/load_utils.py:15-21 | the result has exactly one key per track id of the index; it is built exactly when every track's list is |
| LoadUtils.CollectPerTrack | mir_dataset_loaders/load_utils.py:16-21 | with distinct ids, each track id maps to that track's own list |
| LoadUtils.Ids | mir_dataset_loaders/load_utils.py:16 | the track ids of the index, in the index's order |
| LoadUtils.PrintMissing | mir_dataset_loaders/load_utils.py:23-28 | the printing loop's output is `Printout`; it reads the map and does not change it |
| LoadUtils.Validator | mir_dataset_loaders/load_utils.py:14-29 | the returned map is exactly `Collect` with the as-written path rule. It has a key for every track id. What it prints is `Printout` of that map |
| LoadUtils.MissingFilesErrPersists | mir_dataset_loaders/load_utils.py:18-19 | once a key raises, the inner loop raises that error |
| LoadUtils.CollectErrPersists | mir_dataset_loaders/load_utils.py:16-19 | once a track raises, the outer loop raises that error |
| LoadUtils.AsWrittenChecksDataHomeOnly | mir_dataset_loaders/load_utils.py:19 | as written, an absolute `data_home` is the path checked for every stored path |
| LoadUtils.AsWrittenNoneRaises | mir_dataset_loaders/load_utils.py:19 | as written, a None `data_home` raises for any non-empty index and key list |
| LoadUtils.AsWrittenMissesAbsentFile | mir_dataset_loaders/load_utils.py:19-21 | a one-track index whose file is absent under an existing absolute `data_home`: as written, nothing is reported missing; the intended rule reports the file |
| LoadUtils.IntendedMissingFiles | mir_dataset_loaders/load_utils.py:14-21 | the corrected validator raises only for a missing file key; it keys every track id; a track's list holds a path `get_local_path(data_home, track[key])` exactly when that path does not exist |
| LoadUtils.IntendedOkIff | mir_dataset_loaders/load_utils.py:18-19 | with the intended rule, the validator fails exactly when some track lacks a file key |
| LoadUtils.IntendedListsMissing | mir_dataset_loaders/load_utils.py:18-21 | with the intended rule, each list holds exactly the missing files |
| LoadUtils.MissingFilesSingle | mir_dataset_loaders/load_utils.py:18-21 | one key: the list is empty when the file exists and holds its path otherwise |
| LoadUtils.CollectSingle | mir_dataset_loaders/load_utils.py:15-17 | a one-track index maps its id to the track's list |
| Text.Split | scripts/make_orchset_index.py:47 | `str.split(sep)` gives at least one piece; no piece holds `sep`; the first piece is a prefix followed by `sep` or the end |
| Text.SplitCount | scripts/make_ikala_index.py:79 | there are two or more pieces exactly when `sep` occurs |
| Text.JoinSplit | scripts/make_orchset_index.py:49-51 | `sep.join(s.split(sep)) == s` |
| Text.SplitJoin | scripts/make_orchset_index.py:49-51 | splitting a join of `sep`-free pieces gives the pieces back |
| Text.FirstPiece | scripts/make_ikala_index.py:54 | `s.split(sep)[0]` is the longest `sep`-free prefix: `s` itself when `sep` does not occur, else the part before the first `sep` |
| Text.FirstPieceResplit | scripts/make_orchset_index.py:47-49 | splitting the first piece again returns it whole |
| Text.Basename | scripts/make_ikala_index.py:38 | `os.path.basename` is the longest `/`-free suffix of the path: it holds no `/`, ends the path, and is preceded by a `/` when shorter than the path |
| Text.SplitLast | scripts/make_ikala_index.py:38 | the last piece of a split ends the string and is preceded by the separator when shorter than it |
| Text.Lower | scripts/make_orchset_index.py:55 | `str.lower` keeps the length, maps each character through `LowerChar` (`A`-`Z` to `a`-`z`, every other character unchanged) and leaves no upper-case ASCII letter |
| Text.Dedupe | scripts/make_orchset_index.py:62 | `list(set(xs))` has no duplicates and the same members as `xs` |
| Text.MapPermutation | scripts/make_ikala_index.py:36-38 | mapping two permutations of a list gives permutations of each other |
| Text.Insert | scripts/make_ikala_index.py:37 | inserting into a sorted list keeps it sorted and adds exactly that element |
| Text.SortStrings | scripts/make_ikala_index.py:37 | `sorted` returns an ascending permutation of its input |
| Text.LexTotal | scripts/make_ikala_index.py:37 | string order is total |
| Text.LexAntisymmetric | scripts/make_ikala_index.py:37 | string order is antisymmetric |
| Text.LexTransitive | scripts/make_ikala_index.py:37 | string order is transitive |
| Text.SortedUnique | scripts/make_ikala_index.py:37 | two sorted permutations of the same list are equal |
| Text.SortOrderFree | scripts/make_ikala_index.py:37 | the sorted list does not depend on the input's order |
| OrchsetIndex.Kept | scripts/make_orchset_index.py:37-41 | the first loop never adds rows and keeps only non-empty ones |
| OrchsetIndex.KeptSnoc | scripts/make_orchset_index.py:38-41 | one step of the first loop appends the next row unless its first field is `'excerpt'` |
| OrchsetIndex.KeptAppend | scripts/make_orchset_index.py:38-41 | the rows kept from two stretches of the table are those of the first stretch followed by those of the second: the order is kept |
| OrchsetIndex.KeptAt | scripts/make_orchset_index.py:38-41 | a kept row sits right after the rows kept before it and is followed only by kept rows that come after it in the table |
| OrchsetIndex.KeptMembers | scripts/make_orchset_index.py:39-41 | the kept rows are exactly the rows whose first field is not `'excerpt'` |
| OrchsetIndex.DataRows | scripts/make_orchset_index.py:35-41 | reading succeeds exactly when every row has a first field; an empty row raises `IndexError` |
| OrchsetIndex.ReadDataRows | scripts/make_orchset_index.py:37-41 | the loop on the rows yields exactly `DataRows` |
| OrchsetIndex.TrackId | scripts/make_orchset_index.py:47 | the track id is the longest `.`-free prefix of the first field: the whole field when it has no `.`, otherwise the part before its first `.` |
| OrchsetIndex.TrackIdResplit | scripts/make_orchset_index.py:47-49 | re-splitting the track id on `'.'` at line 49 changes nothing |
| OrchsetIndex.IdSplit | scripts/make_orchset_index.py:49-52 | it fails (with `IndexError`) exactly for a bare `Musorgski`/`Rimski` id without `'-'`; otherwise it returns at least one piece, and the pieces joined with `'-'` give back the id. The pieces are those of `id.split('-')`, with the first two merged with a `'-'` for `Musorgski`/`Rimski` |
| OrchsetIndex.SplitTrackId | scripts/make_orchset_index.py:49-52 | the in-place merge of the first two pieces yields exactly `IdSplit` |
| OrchsetIndex.ComposerWorkRebuild | scripts/make_orchset_index.py:95-97 | for three or more pieces, `composer-work-last` is the id. The composer is the first `'-'` piece, or the first two joined with `'-'` for the merging composers |
| OrchsetIndex.ComposerOfId | scripts/make_orchset_index.py:49-52 | the composer is the first `'-'` piece of the id, or the first two joined with `'-'` for `Musorgski`/`Rimski` |
| OrchsetIndex.JoinPieces | scripts/make_orchset_index.py:95-97 | for three or more pieces, composer, work and last piece joined with `'-'` are all the pieces joined |
| Text.JoinWithLast | scripts/make_orchset_index.py:96 | a join of two or more pieces is the join of all but the last, then `sep`, then the last |
| OrchsetIndex.SplitEach | scripts/make_orchset_index.py:54 | `[s.split(',') for s in ...]` splits every piece |
| OrchsetIndex.LowerEach | scripts/make_orchset_index.py:55-56 | each flattened item is lower-cased |
| OrchsetIndex.Renamed | scripts/make_orchset_index.py:57-61 | each item is renamed in its own position |
| OrchsetIndex.RenameItems | scripts/make_orchset_index.py:57-61 | the in-place renaming loop yields exactly `Renamed` of the items: each item renamed in its own position |
| OrchsetIndex.RenameAvoidsOldNames | scripts/make_orchset_index.py:58-61 | a renamed item is never `'string'` or `'winds (solo)'` |
| OrchsetIndex.RenamedAvoidsOldNames | scripts/make_orchset_index.py:57-61 | after the rename loop, no item is `'string'` or `'winds (solo)'` |
| OrchsetIndex.NormalizeItems | scripts/make_orchset_index.py:57-62 | the normalised list has no duplicates and contains neither `'string'` nor `'winds (solo)'` |
| OrchsetIndex.NormalizeItemsMembers | scripts/make_orchset_index.py:57-62 | the normalised list holds exactly the renamed items |
| OrchsetIndex.NormalizeInstruments | scripts/make_orchset_index.py:54-62 | the loop that rewrites items in place, followed by `list(set(...))`, yields exactly the normalised instruments |
| OrchsetIndex.TfDict | scripts/make_orchset_index.py:43 | `'TRUE'` maps to true and `'FALSE'` to false; any other value raises `KeyError` naming it |
| OrchsetIndex.Flags | scripts/make_orchset_index.py:88-94 | the columns are read exactly when each exists and is TRUE/FALSE, giving one flag per column |
| OrchsetIndex.FlagsReadableOk | scripts/make_orchset_index.py:88-94 | columns 2 to 8 are read exactly when they are present and each is TRUE or FALSE; each flag is its column equal to `'TRUE'` |
| OrchsetIndex.Checksums | scripts/make_orchset_index.py:64-69 | the three digests exist exactly when the three data files exist, in stereo, mono, melody order |
| OrchsetIndex.HashDataFiles | scripts/make_orchset_index.py:64-69 | hashing on the disk yields exactly `Checksums` |
| OrchsetIndex.RowRecordOk | scripts/make_orchset_index.py:47-94 | a row builds exactly when its id splits, its three data files exist and its boolean columns are readable |
| OrchsetIndex.RowRecordFields | scripts/make_orchset_index.py:71-98 | a built record has the paths `Orchset/audio/stereo/<id>.wav`, `Orchset/audio/mono/<id>.wav` and `Orchset/GT/<id>.mel` with their digests. It keeps the raw instrument field verbatim, holds its normalisation, reads each boolean column as `'TRUE'`, and holds the id's composer, work and excerpt |
| OrchsetIndex.MakeRecord | scripts/make_orchset_index.py:47-98 | the loop body on the disk yields the row's record or error |
| OrchsetIndex.RowBuilderApplies | scripts/make_orchset_index.py:47-98 | the builder of the second loop is `RowRecord` on every row |
| OrchsetIndex.RowBuilderBuildsRows | scripts/make_orchset_index.py:46-98 | the builder agrees with `RowRecord` on every row |
| OrchsetIndex.RecordsStep | scripts/make_orchset_index.py:46-71 | one turn stores the row's record under its id, or ends the loop with the row's error |
| OrchsetIndex.RecordsOk | scripts/make_orchset_index.py:46-71 | the index is built exactly when every data row builds |
| OrchsetIndex.RecordsKeys | scripts/make_orchset_index.py:46-71 | the keys of the index are exactly the ids of the data rows |
| OrchsetIndex.RecordsCoverRows | scripts/make_orchset_index.py:46-71 | every data row's id is a key of the index |
| OrchsetIndex.RecordsOnlyRows | scripts/make_orchset_index.py:46-71 | every key of the index is the id of some data row |
| OrchsetIndex.LastRowWins | scripts/make_orchset_index.py:71 | a row no later row shares an id with holds its id's entry: a later row with the same id overwrites an earlier one |
| OrchsetIndex.RecordsErrPersists | scripts/make_orchset_index.py:46-71 | once a row raises, the loop raises that error |
| OrchsetIndex.BuildRecords | scripts/make_orchset_index.py:45-98 | the second loop on the disk yields exactly `Records` |
| OrchsetIndex.OrchsetIndexOf | scripts/make_orchset_index.py:30-98 | a missing instrument table raises an I/O error |
| OrchsetIndex.OrchsetIndexKeys | scripts/make_orchset_index.py:35-71 | a built index has as keys exactly the ids of the table's rows other than the `'excerpt'` header |
| OrchsetIndex.TableKeys | scripts/make_orchset_index.py:38-71 | the same, for any record builder |
| OrchsetIndex.OrchsetIndexLastRow | scripts/make_orchset_index.py:35-71 | in a built index, the id of a non-header row that no later non-header row shares maps to exactly the record `RowRecord` builds from that row |
| OrchsetIndex.TableLastRow | scripts/make_orchset_index.py:38-71 | the same, for any record builder |
| OrchsetIndex.MakeOrchsetIndex | scripts/make_orchset_index.py:30-98 | `make_orchset_index` on the disk yields exactly `OrchsetIndexOf` |
| IkalaIndex.Stems | scripts/make_ikala_index.py:38 | one stem per listed file, in order |
| IkalaIndex.TrackIdsSpec | scripts/make_ikala_index.py:36-38 | the track ids are in ascending order. They are the basenames of the listed files truncated at the first `'.'`, each as often as it occurs. None holds `'.'` or `'/'` |
| IkalaIndex.TrackIdsOrderFree | scripts/make_ikala_index.py:36-38 | the ids do not depend on the order in which `glob` lists the files |
| IkalaIndex.FetchIdMapping | scripts/make_ikala_index.py:40-42 | a present mapping file leaves the disk unchanged; an absent one is retrieved from the mapping URL |
| IkalaIndex.IdMappingNotRefetched | scripts/make_ikala_index.py:40-42 | after a successful fetch the file is present, and a second call consults no network and changes nothing |
| IkalaIndex.EnsureIdMapping | scripts/make_ikala_index.py:40-42 | on the disk, the result and new state follow `FetchIdMapping`; a failure leaves the disk unchanged |
| IkalaIndex.SingerMapOk | scripts/make_ikala_index.py:44-50 | the singer map is built exactly when every row has a first field, and a second one unless it is the header; otherwise it raises `IndexError` |
| IkalaIndex.SingerMapKeys | scripts/make_ikala_index.py:47-50 | the songs of the map are exactly the second fields of the non-header rows |
| IkalaIndex.SingerMapLastWins | scripts/make_ikala_index.py:50 | a later row for the same song overrides an earlier one |
| IkalaIndex.SingerMapErrPersists | scripts/make_ikala_index.py:47-50 | once a row raises, the loop raises that error |
| IkalaIndex.ReadSingerMap | scripts/make_ikala_index.py:46-50 | the loop yields exactly `SingerMap` |
| IkalaIndex.Checksums | scripts/make_ikala_index.py:55-60 | the three digests exist exactly when the audio, pitch and lyrics files exist, in that order |
| IkalaIndex.KeyRecordOk | scripts/make_ikala_index.py:54-79 | a key builds exactly when its files exist, its song id is in the singer map and it contains `'_'`. A missing song raises `KeyError` with the song id; a key without `'_'` raises `IndexError` |
| IkalaIndex.KeyRecordFields | scripts/make_ikala_index.py:62-79 | a built record has the paths `iKala/Wavfile/<key>.wav`, `iKala/PitchLabel/<key>.pv` and `iKala/Lyrics/<key>.lab` with their digests. The song id is the key's part before the first `'_'`, and the singer is `singer_map[song_id]`. The section is the second `'_'` piece |
| IkalaIndex.MakeKeyRecord | scripts/make_ikala_index.py:54-80 | the loop body on the disk yields the key's record or error |
| IkalaIndex.KeyBuilderBuildsKeys | scripts/make_ikala_index.py:53-80 | the loop's builder agrees with `KeyRecord` on every key |
| IkalaIndex.EntriesOk | scripts/make_ikala_index.py:52-80 | the index is built exactly when every key builds; it then has exactly the given keys, each holding its own record |
| IkalaIndex.EntriesFirstError | scripts/make_ikala_index.py:53-80 | when building fails, it raises the error of the first key that fails |
| IkalaIndex.EntriesErrPersists | scripts/make_ikala_index.py:53-80 | once a key raises, the loop raises that error |
| IkalaIndex.EntriesStep | scripts/make_ikala_index.py:53-80 | one turn stores the key's record, or ends the loop with its error |
| IkalaIndex.BuildEntries | scripts/make_ikala_index.py:52-80 | the loop on the disk yields exactly `Entries` |
| IkalaIndex.IkalaIndexOf | scripts/make_ikala_index.py:34-80 | a failed mapping fetch raises and leaves the disk unchanged; otherwise the disk afterwards is the one the fetch left |
| IkalaIndex.IkalaIndexEntries | scripts/make_ikala_index.py:37-80 | a built index has exactly the track ids as keys; each record is what `KeyRecord` builds from the disk after the fetch and the singer map read from the mapping file |
| IkalaIndex.MakeIkalaIndex | scripts/make_ikala_index.py:34-80 | `make_ikala_index` on the disk yields exactly `IkalaIndexOf` and its new disk |
| Downloader.KeysOf | tests/test_download_utils.py:100 | the keys of the remotes dictionary, in order |
| Downloader.PutKeys | tests/test_download_utils.py:184-198 | putting the index's remote under `"index"` gives exactly the old keys plus that key |
| Downloader.PutItems | tests/test_download_utils.py:184-198 | inserting replaces the entry for that key and keeps every other entry |
| Downloader.PutDistinct | tests/test_download_utils.py:184-198 | inserting keeps the keys distinct |
| Downloader.Selected | tests/test_download_utils.py:96-107 | selection never adds remotes |
| Downloader.SelectedItems | tests/test_download_utils.py:96-107 | the selected remotes are exactly those whose key passes the filter |
| Downloader.SelectedDistinct | tests/test_download_utils.py:96-107 | selection keeps keys distinct |
| Downloader.SelectedAll | tests/test_download_utils.py:49-94 | without a filter, every remote is selected |
| Downloader.Dispatch | tests/test_download_utils.py:42-94 | `.zip` goes to `download_zip_file` and `.tar.gz` to `download_tar_file`, each with `cleanup`; anything else goes to `download_from_remote`. Each call carries the remote, the save directory, `force_overwrite` and `allow_invalid_checksum` |
| Downloader.TestKinds | tests/test_download_utils.py:42-45 | `remote.zip` is a zip, `remote.tar.gz` a tar, `remote.txt` and `asdf.json` plain |
| Downloader.Calls | tests/test_download_utils.py:49-94 | one call per selected remote |
| Downloader.CallsAt | tests/test_download_utils.py:49-94 | the i-th call is the dispatch of the i-th selected remote |
| Downloader.CallsCover | tests/test_download_utils.py:88-93 | every selected remote is dispatched |
| Downloader.PlanCalls | tests/test_download_utils.py:96-212 | a valid plan dispatches each selected remote exactly once, in order |
| Downloader.PlanUnfiltered | tests/test_download_utils.py:49-94 | with no filter and no index remote, every remote is dispatched in order |
| Downloader.InvalidPartialRejected | tests/test_download_utils.py:109-124 | a `partial_download` that is not a list, or names an unknown key, raises the "subset" `ValueError` |
| Downloader.ExplicitPartialWins | tests/test_download_utils.py:160-182 | an explicit list is used as given; the index's `partial_download` applies only when the explicit one is None |
| Downloader.IndexAlwaysFetched | tests/test_download_utils.py:206-212 | a remote keyed `"index"` is fetched whatever keys the list names |
| Downloader.NothingToFetch | tests/test_download_utils.py:154-158 | no remotes and no index remote: no call is made |
| Downloader.PartialScenario | tests/test_download_utils.py:96-107 | the filter `["b", "d"]` over `b, c, d` calls exactly for `b` and `d` |
| Downloader.IndexPartialScenario | tests/test_download_utils.py:160-169 | the index's `partial_download ["b"]` selects only `b` |
| Downloader.ExplicitOverIndexScenario | tests/test_download_utils.py:171-182 | an explicit `["d"]` overrides the index's `["b"]` |
| Downloader.RemoteIndexScenario | tests/test_download_utils.py:184-198 | the index's own remote is dispatched by its file name (`Dispatch`), whether or not there are other remotes; for the test's `asdf.json` (see `TestKinds`) that dispatch is `download_from_remote` |
| Downloader.IndexKeyScenario | tests/test_download_utils.py:206-212 | `{"index", "file"}` with `["file"]` fetches both |
| Downloader.Dispatcher.constructor | tests/test_download_utils.py:37-40 | the call log starts empty |
| Downloader.Dispatcher.Downloader | tests/test_download_utils.py:37-212 | a rejected configuration leaves the log unchanged and raises; otherwise the plan's calls are appended to the log, in order |
| Downloader.CallsFor | tests/test_download_utils.py:49-107 | the dispatch loop yields exactly the calls for the selected remotes |
| Downloader.DispatchStep | tests/test_download_utils.py:49-107 | one turn of the dispatch loop adds the next remote's call exactly when it passes the filter |
| Downloader.RemotePathJoin | tests/test_download_utils.py:385-398 | the path is `os.path.join(save_dir, destination_dir, filename)`; with no destination it is directly in `save_dir` |
| Downloader.FetchRemote | tests/test_download_utils.py:396-398 | on success the returned path is the remote's path |
| Downloader.FetchOutcomes | tests/test_download_utils.py:401-407 | a failed fetch raises "Failed to download" and changes nothing. A successful fetch writes the bytes and then verifies exactly when the digest matches. Otherwise it raises the checksum error naming both digests, or only warns when invalid checksums are allowed |
| Downloader.FetchTwice | tests/test_download_utils.py:235-237 | a second call without `force_overwrite` after a successful one makes no transfer, changes nothing and returns the same path |
| Downloader.Run | tests/test_download_utils.py:235-247 | a completed run has one outcome per call |
| Downloader.RunStops | tests/test_download_utils.py:257-266 | once a call raises, the run raises that error and makes no more calls |
| Downloader.DownloaderRun | tests/test_download_utils.py:109-124 | a rejected configuration raises the `ValueError` before anything on disk changes |
| Downloader.PlanSingle | tests/test_download_utils.py:235 | one unfiltered remote yields exactly its own call |
| Downloader.RunSingle | tests/test_download_utils.py:235 | a run of one call raises what that call raises, or lists its outcome |
| Downloader.ServedFileMismatch | tests/test_download_utils.py:251-296 | a served file whose checksum is wrong makes the orchestrator raise the checksum error under every `cleanup`/`force_overwrite` combination, or complete with a warning when `allow_invalid_checksum` is set |
| Downloader.FetchGrows | tests/test_download_utils.py:235-247 | a fetch never removes a file or a directory |
| Downloader.ExtractsIntoRemoteDir | tests/test_download_utils.py:424-430 | an archive whose file name holds no `/` is extracted into `save_dir`, or `destination_dir` under it |
| Downloader.ExtractGrows | tests/test_download_utils.py:313-315 | extraction without cleanup never removes a file |
| Downloader.PerformGrows | tests/test_download_utils.py:313-315 | a call without cleanup never removes a file |
| Downloader.PerformLeavesFile | tests/test_download_utils.py:235-237 | a successful call without cleanup leaves the remote's file on disk |
| Downloader.GentleInit | tests/test_download_utils.py:131-132 | dropping the last call keeps a run free of cleanup and overwrite |
| Downloader.GrowsKeepsFiles | tests/test_download_utils.py:131-132 | files that were present stay present as the disk grows |
| Downloader.HasFilesSnoc | tests/test_download_utils.py:131-132 | the files of a prefix plus the last call's file are the files of the whole run |
| Downloader.RunGrows | tests/test_download_utils.py:131-132 | a run without cleanup never removes a file |
| Downloader.RunLeavesFiles | tests/test_download_utils.py:131-132 | after a successful run without cleanup, every call's file is on disk |
| Downloader.RunOffline | tests/test_download_utils.py:131-132 | when every call's file is present, a run without overwrite does not depend on the network |
| Downloader.DownloadTwiceOffline | tests/test_download_utils.py:131-132 | a second default run after a successful one makes no transfer |
| Downloader.FetchRemoteOn | tests/test_download_utils.py:382 | on the disk, the result and new state equal `FetchRemote` |
| Downloader.PerformOn | tests/test_download_utils.py:424-457 | the helper named by a call, run on the disk, equals `Perform` |
| Downloader.RunOn | tests/test_download_utils.py:88-94 | the calls on the disk, in order and stopping at the first error, equal `Run` |
| Downloader.DownloaderOn | tests/test_download_utils.py:221-296 | the orchestrator on the disk equals `DownloaderRun` |

## Left out

- `HOME`: `MIR_DATASETS_DIR` is `os.path.join(os.environ["HOME"], "mir_datasets")`, read once at import. The environment is not part of the model, so `Paths.Home` is a fixed stand-in, `/home/user`.
- `os.path.join` is modelled in full, including an absolute second component. `None` arguments are not strings here: where the source would pass None (load_utils.py:19), the model raises `TypeError` explicitly.
- Storage.Retrieve: the parent directory of the target is not checked. A write into a directory that does not exist succeeds in the model, whereas `urlretrieve` raises `FileNotFoundError` there. The rows for `Storage.Retrieve` and `DatasetsDownload.Download` state success only under this model of the disk.
- Storage.Disk.MakeDirs: only the named directory is recorded; the intermediate parents `os.makedirs` also creates are not modelled.
- Storage.ExtractArchive: the parent directories that `extractall` creates for the members are not added to `dirs`, so `Exists` stays false for them. A remote whose path is such a directory would be fetched again in the model, where the program skips it.
- Storage.ExtractArchive: a member written over an existing directory succeeds in the model and replaces nothing in `dirs`; Python raises `IsADirectoryError` there.
- Storage.Disk.ExtractAll: the same two gaps as `Storage.ExtractArchive`; its `dirs` stay as they were.
- Archives: zip and tar parsing, directory members and member-name validation are outside the model. An `ArchiveReader` yields the file members, and `extractall` writes them under the directory it is given, in archive order. The orchestrator's helpers give it the directory of the fetched archive.
- The CP437/UTF-8 member-name repair (`extractall_unicode`) has no implementation here, because that implementation is not part of this model.
- MD5, the network, `csv.reader` and `glob.glob` are function-typed parameters. No claim is made about the digest itself.
- Progress bars (`DownloadProgressBar`, tqdm), message texts and `info_message` are display only and are not modelled. The exception's message text is a constructor carrying the same three values.
- Text.Lower: lower-cases ASCII letters only, not the rest of Unicode.
- Text.Dedupe: keeps first occurrences in order, whereas `list(set(...))` gives an unspecified order. The contract claims only that there are no duplicates and that the members are the same.
- The JSON dump of both index builders, and the fixed index paths they write to, are left out. The index is returned instead.
- The command-line entry points of both index scripts (`main`, argparse) are left out.
- Downloader: the implementation of `mirdata.download_utils` is not part of this model. The orchestrator is modelled from what `tests/test_download_utils.py` asserts and claims only that.
  - Calls follow the remotes' insertion order, plus the index remote.
  - The creation of `save_dir` (`Path.mkdir`, mocked in the tests) is not modelled.
  - Archives are told apart only by the two extensions the tests use, `.zip` and `.tar.gz`. In the model, any other name goes to `download_from_remote`.
  - A `force_overwrite` fetch overwrites the file in place. Any removal done before the download is not modelled.
- Downloader.DownloaderRun: states only that a rejected configuration raises before any change. What a valid configuration does is stated by `Run`, `RunLeavesFiles`, `RunOffline` and `ServedFileMismatch`.
- The dataset loaders are left out:
  - `orchset.py` and `ikala.py`, in both package generations, parse audio and annotations with numpy and librosa;
  - `load_track` in `mir_dataset_loaders/orchset.py` builds a 15-field tuple from 14 values;
  - `idmt_smt_audio_effects.py` parses XML.
- The dataset-specific download glue (`mir_dataset_loaders/download/orchset.py`, `mir_datasets/download/maps.py`) only composes the helpers modelled here.
- Also left out:
  - `scripts/make_medleydb_pitch_index.py`, which is driven by the external `medleydb` package;
  - `mirdata/base.py`, which is class metaprogramming;
  - packaging and the loader tests.
- Concurrency and partial writes: every disk operation is modelled as atomic.

## Findings

| source | as written | input that shows it | evidently intended | confidence | as-written member | corrected member |
|---|---|---|---|---|---|---|
| mir_dataset_loaders/load_utils.py:19 | `get_local_path(track[key], data_home)` passes the stored path as `data_home` and `data_home` as `rel_path`. With an absolute `data_home`, `os.path.join` discards the stored path, so `data_home` itself is checked for every file. With `data_home=None`, `os.path.join(stored, None)` raises `TypeError` | `data_home="/data"`, which exists; one track `{"audio": "Orchset/audio/x.wav"}`; `/data/Orchset/audio/x.wav` absent. The result is `{id: []}`, so nothing is reported missing. With `data_home=None` and any non-empty index, the call raises | `get_local_path(data_home, track[key])`, which checks `/data/Orchset/audio/x.wav` and reports it missing | not executed | LoadUtils.AsWrittenMissesAbsentFile | LoadUtils.IntendedMissingFiles |
