/**
 * The older download helpers (`mir_dataset_loaders/download_utils.py`):
 * `get_save_path`, `download_from_remote` with its skip-if-present rule and
 * unconditional checksum check, and `unzip`/`untar`, which keep the archive
 * unless asked to clean up.
 */
module LoaderDownload {
  import opened Wrappers
  import opened Paths
  import opened Storage

  /**
   * `get_save_path`: the directory to save into is `data_home`, or
   * `MIR_DATASETS_DIR` when it is None; it is created when it does not exist,
   * and an existing path is left as it is. The empty path never exists, so
   * an empty `data_home` reaches `os.makedirs("")`, which raises.
   */
  method GetSavePath(disk: Disk, dataHome: Option<string>) returns (r: Result<string, IoError>)
    modifies disk
    ensures var p := if dataHome.None? then MirDatasetsDir else dataHome.value;
      && (p == "" ==> r == Err(FileNotFound("")) && disk.State() == old(disk.State()))
      && (p != "" ==> r == Ok(p) && disk.State().Exists(p))
      && (p != "" && old(disk.State().Exists(p)) ==> disk.State() == old(disk.State()))
      && (p != "" && !old(disk.State().Exists(p)) ==>
            disk.files == old(disk.files) && disk.dirs == old(disk.dirs) + {p})
  {
    var savePath: string;
    if dataHome.None? {
      savePath := MirDatasetsDir;
    } else {
      savePath := dataHome.value;
    }
    if savePath == "" || !disk.State().Exists(savePath) {
      var made := disk.MakeDirs(savePath);
      if made.Err? {
        return Err(made.error);
      }
    }
    r := Ok(savePath);
  }

  /** Whether `download_from_remote` transfers the file: it is absent, or `clobber` is set. */
  predicate Transfers(fs: Fs, remote: RemoteFileMetadata, dataHome: Option<string>, clobber: bool)
  {
    !fs.Exists(DownloadPath(remote, dataHome)) || clobber
  }

  /**
   * `download_from_remote(remote, data_home, clobber)`: the value returned or
   * the error raised, and the file system afterwards.
   *
   * A present file is not transferred again unless `clobber` is set; a
   * transfer replaces the file's bytes with the fetched ones. Whatever
   * happened to the file, it is then hashed, and the call returns its path
   * exactly when the digest is the expected one. A mismatch raises and leaves
   * the file in place.
   */
  function Download(fs: Fs, fetch: Fetch, hash: Hash, remote: RemoteFileMetadata,
                    dataHome: Option<string>, clobber: bool): (r: (Result<string, IoError>, Fs))
    ensures var path := DownloadPath(remote, dataHome);
      && (r.0.Ok? ==> r.0.value == path)
      && (!Transfers(fs, remote, dataHome, clobber) ==> r.1 == fs)
      && (Transfers(fs, remote, dataHome, clobber) && fetch(remote.url).None? ==>
                r == (Err(TransferFailed(remote.url)), fs))
      && (Transfers(fs, remote, dataHome, clobber) && fetch(remote.url).Some? && path !in fs.dirs ==>
                r.1.files == fs.files[path := fetch(remote.url).value] && r.1.dirs == fs.dirs)
      && (r.0.Err? && r.0.error.ChecksumMismatch? ==>
                path in r.1.files
                && r.0.error == ChecksumMismatch(path, hash(r.1.files[path]), remote.checksum))
  {
    var path := DownloadPath(remote, dataHome);
    if Transfers(fs, remote, dataHome, clobber) then
      match Retrieve(fs, fetch, remote.url, path)
      case Err(e) => (Err(e), fs)
      case Ok(fs') => (Verify(fs', hash, path, remote.checksum), fs')
    else
      (Verify(fs, hash, path, remote.checksum), fs)
  }

  /**
   * The checksum is checked on every call, including one that skipped the
   * transfer: once the transfer step (if any) succeeded, the call returns
   * normally exactly when the file now on disk has the expected digest.
   */
  lemma ChecksumAlwaysChecked(fs: Fs, fetch: Fetch, hash: Hash, remote: RemoteFileMetadata,
                              dataHome: Option<string>, clobber: bool)
    requires var path := DownloadPath(remote, dataHome);
      !Transfers(fs, remote, dataHome, clobber) || (fetch(remote.url).Some? && path !in fs.dirs)
    ensures var path := DownloadPath(remote, dataHome);
      var r := Download(fs, fetch, hash, remote, dataHome, clobber);
      r.0.Ok? <==> path in r.1.files && hash(r.1.files[path]) == remote.checksum
  {
  }

  /**
   * A file that is already present is not fetched: with `clobber` unset the
   * outcome does not depend on the network at all, and the disk is unchanged.
   */
  lemma NoTransferWhenPresent(fs: Fs, fetch1: Fetch, fetch2: Fetch, hash: Hash,
                              remote: RemoteFileMetadata, dataHome: Option<string>)
    requires fs.Exists(DownloadPath(remote, dataHome))
    ensures Download(fs, fetch1, hash, remote, dataHome, false) == Download(fs, fetch2, hash, remote, dataHome, false)
    ensures Download(fs, fetch1, hash, remote, dataHome, false).1 == fs
  {
  }

  /**
   * Re-running a successful download without `clobber` touches neither the
   * network nor the disk and returns the same path: the helper is idempotent.
   */
  lemma DownloadIdempotent(fs: Fs, fetch: Fetch, fetch': Fetch, hash: Hash, remote: RemoteFileMetadata,
                           dataHome: Option<string>, clobber: bool)
    requires Download(fs, fetch, hash, remote, dataHome, clobber).0.Ok?
    ensures var first := Download(fs, fetch, hash, remote, dataHome, clobber);
      Download(first.1, fetch', hash, remote, dataHome, false) == first
  {
    var path := DownloadPath(remote, dataHome);
    var first := Download(fs, fetch, hash, remote, dataHome, clobber);
    assert path in first.1.files;
  }

  /** `download_from_remote(remote, data_home=None, clobber=False)`. */
  method DownloadFromRemote(disk: Disk, fetch: Fetch, hash: Hash, remote: RemoteFileMetadata,
                            dataHome: Option<string> := None, clobber: bool := false)
    returns (r: Result<string, IoError>)
    modifies disk
    ensures (r, disk.State()) == Download(old(disk.State()), fetch, hash, remote, dataHome, clobber)
  {
    var path := DownloadPath(remote, dataHome);
    if !disk.State().Exists(path) || clobber {
      var transfer := disk.UrlRetrieve(fetch, remote.url, path);
      if transfer.Err? {
        r := Err(transfer.error);
        return;
      }
    }
    r := VerifyChecksum(disk, hash, path, remote.checksum);
  }

  /** `unzip(zip_path, save_dir, cleanup=False)`. */
  method Unzip(disk: Disk, readZip: ArchiveReader, zipPath: string, saveDir: string, cleanup: bool := false)
    returns (r: Result<(), IoError>)
    modifies disk
    ensures (r, disk.State()) == ExtractArchive(old(disk.State()), readZip, zipPath, saveDir, cleanup)
  {
    r := Extract(disk, readZip, zipPath, saveDir, cleanup);
  }

  /** `untar(tar_path, save_dir, cleanup=False)`. */
  method Untar(disk: Disk, readTar: ArchiveReader, tarPath: string, saveDir: string, cleanup: bool := false)
    returns (r: Result<(), IoError>)
    modifies disk
    ensures (r, disk.State()) == ExtractArchive(old(disk.State()), readTar, tarPath, saveDir, cleanup)
  {
    r := Extract(disk, readTar, tarPath, saveDir, cleanup);
  }
}
