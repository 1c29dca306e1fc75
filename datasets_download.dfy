/**
 * The second generation of the helpers (`mir_datasets/download/utils.py`):
 * `download_from_remote` fetches every time, whether or not the file is
 * already there, then checks the checksum; `unzip`/`untar` remove the archive
 * by default.
 */
module DatasetsDownload {
  import opened Wrappers
  import opened Paths
  import opened Storage

  /**
   * `download_from_remote(remote, data_home)`: transfer the remote to its
   * download path unconditionally, then return the path exactly when the new
   * contents have the expected digest. A mismatch raises and keeps the file.
   */
  function Download(fs: Fs, fetch: Fetch, hash: Hash, remote: RemoteFileMetadata, dataHome: Option<string>)
    : (r: (Result<string, IoError>, Fs))
    ensures var path := DownloadPath(remote, dataHome);
      && (r.0.Ok? <==> fetch(remote.url).Some? && path !in fs.dirs && hash(fetch(remote.url).value) == remote.checksum)
      && (r.0.Ok? ==> r.0.value == path)
      && (fetch(remote.url).Some? && path !in fs.dirs ==>
                r.1 == fs.(files := fs.files[path := fetch(remote.url).value]))
      && (r.0.Err? && r.0.error.ChecksumMismatch? ==>
                fetch(remote.url).Some? && path in r.1.files && r.1.files[path] == fetch(remote.url).value
                && r.0.error == ChecksumMismatch(path, hash(fetch(remote.url).value), remote.checksum))
  {
    var path := DownloadPath(remote, dataHome);
    match Retrieve(fs, fetch, remote.url, path)
    case Err(e) => (Err(e), fs)
    case Ok(fs') => (Verify(fs', hash, path, remote.checksum), fs')
  }

  /**
   * The fetch happens even when the file exists: what was at the download path
   * before the call has no influence on the outcome or on the file afterwards.
   */
  lemma PreviousContentsIrrelevant(fs1: Fs, fs2: Fs, fetch: Fetch, hash: Hash,
                                   remote: RemoteFileMetadata, dataHome: Option<string>)
    requires var path := DownloadPath(remote, dataHome);
      fs1.files - {path} == fs2.files - {path} && fs1.dirs == fs2.dirs && path !in fs1.dirs
    requires fetch(remote.url).Some?
    ensures Download(fs1, fetch, hash, remote, dataHome).0 == Download(fs2, fetch, hash, remote, dataHome).0
    ensures Download(fs1, fetch, hash, remote, dataHome).1 == Download(fs2, fetch, hash, remote, dataHome).1
  {
    var path := DownloadPath(remote, dataHome);
    var body := fetch(remote.url).value;
    assert fs1.files[path := body] == (fs1.files - {path})[path := body];
    assert fs2.files[path := body] == (fs2.files - {path})[path := body];
  }

  /** `download_from_remote(remote, data_home=None)`. */
  method DownloadFromRemote(disk: Disk, fetch: Fetch, hash: Hash, remote: RemoteFileMetadata,
                            dataHome: Option<string> := None)
    returns (r: Result<string, IoError>)
    modifies disk
    ensures (r, disk.State()) == Download(old(disk.State()), fetch, hash, remote, dataHome)
  {
    var path := DownloadPath(remote, dataHome);
    var transfer := disk.UrlRetrieve(fetch, remote.url, path);
    if transfer.Err? {
      r := Err(transfer.error);
      return;
    }
    r := VerifyChecksum(disk, hash, path, remote.checksum);
  }

  /** `unzip(zip_path, save_dir, cleanup=True)`. */
  method Unzip(disk: Disk, readZip: ArchiveReader, zipPath: string, saveDir: string, cleanup: bool := true)
    returns (r: Result<(), IoError>)
    modifies disk
    ensures (r, disk.State()) == ExtractArchive(old(disk.State()), readZip, zipPath, saveDir, cleanup)
  {
    r := Extract(disk, readZip, zipPath, saveDir, cleanup);
  }

  /** `untar(tar_path, save_dir, cleanup=True)`. */
  method Untar(disk: Disk, readTar: ArchiveReader, tarPath: string, saveDir: string, cleanup: bool := true)
    returns (r: Result<(), IoError>)
    modifies disk
    ensures (r, disk.State()) == ExtractArchive(old(disk.State()), readTar, tarPath, saveDir, cleanup)
  {
    r := Extract(disk, readTar, tarPath, saveDir, cleanup);
  }
}
