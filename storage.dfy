/**
 * The file system the download helpers act on, and the operations they share:
 * hashing a file in 4096-byte chunks, retrieving a URL into a file, and
 * extracting an archive's members under a directory.
 *
 * The file system is a map from path to contents plus a set of directories.
 * The network (`urlretrieve`), the digest (`hashlib.md5`) and archive member
 * parsing (`zipfile`, `tarfile`) are parameters of function type: the model
 * says when they are consulted and what is done with their answers, nothing
 * about how they compute them.
 */
module Storage {
  import opened Wrappers
  import opened Text
  import opened Paths

  type Bytes = seq<bv8>

  /** `hashlib.md5(data).hexdigest()`. */
  type Hash = Bytes -> string

  /** The body `urlretrieve` receives for a URL, or `None` when the transfer fails. */
  type Fetch = string -> Option<Bytes>

  /** The members `zipfile` or `tarfile` reads from archive bytes, or `None` when they are unreadable. */
  type ArchiveReader = Bytes -> Option<seq<Member>>

  /** A file member of an archive: its stored (relative) name and its contents. */
  datatype Member = Member(name: string, data: Bytes)

  /** The exceptions the helpers let escape. */
  datatype IoError =
    | FileNotFound(path: string)
    | FileExists(path: string)
    | IsADirectory(path: string)
    | TransferFailed(url: string)
    | ChecksumMismatch(path: string, computed: string, expected: string)
    | UnreadableArchive(path: string)

  /** One CSV row: its fields in column order. */
  type Row = seq<string>

  /** `csv.reader` with the caller's delimiter, run over a file's bytes. */
  type CsvReader = Bytes -> seq<Row>

  /** An index entry for one data file: its path relative to the data home, and its MD5 digest. */
  datatype DataFile = DataFile(path: string, checksum: string)

  /** `RemoteFileMetadata(filename, url, checksum)` of the two helper generations. */
  datatype RemoteFileMetadata = RemoteFileMetadata(filename: string, url: string, checksum: string)

  datatype Fs = Fs(files: map<string, Bytes>, dirs: set<string>) {
    /** `os.path.exists`. */
    predicate Exists(p: string) {
      p in files || p in dirs
    }
  }

  /** The size of each `fhandle.read` in the hashing loop. */
  const ChunkSize: nat := 4096

  /** The outcome of `open(path, "rb").read()`. */
  function Read(fs: Fs, path: string): (r: Result<Bytes, IoError>)
    ensures r.Ok? <==> path in fs.files
    ensures r.Ok? ==> r.value == fs.files[path]
  {
    if path in fs.files then Ok(fs.files[path])
    else if path in fs.dirs then Err(IsADirectory(path))
    else Err(FileNotFound(path))
  }

  /** `md5(path)`: the digest of the file's whole contents, or the error opening it raises. */
  function FileMd5(fs: Fs, hash: Hash, path: string): (r: Result<string, IoError>)
    ensures r.Ok? <==> path in fs.files
    ensures r.Ok? ==> r.value == hash(fs.files[path])
  {
    match Read(fs, path)
    case Ok(data) => Ok(hash(data))
    case Err(e) => Err(e)
  }

  /**
   * `urlretrieve(url, filename=path)`: the new state, or the error raised.
   * A failed transfer and a target that is a directory leave the state as it was.
   */
  function Retrieve(fs: Fs, fetch: Fetch, url: string, path: string): (r: Result<Fs, IoError>)
    ensures r.Ok? <==> fetch(url).Some? && path !in fs.dirs
    ensures r.Ok? ==> r.value == fs.(files := fs.files[path := fetch(url).value])
    ensures fetch(url).None? ==> r == Err(TransferFailed(url))
  {
    match fetch(url)
    case None => Err(TransferFailed(url))
    case Some(body) =>
      if path in fs.dirs then Err(IsADirectory(path))
      else Ok(fs.(files := fs.files[path := body]))
  }

  /**
   * Where both generations of `download_from_remote` put a remote: its file
   * name joined to `data_home`, or to `MIR_DATASETS_DIR` when `data_home` is None.
   */
  function DownloadPath(remote: RemoteFileMetadata, dataHome: Option<string>): (r: string)
    ensures !IsAbsolute(remote.filename) ==> dataHome.GetOr(MirDatasetsDir) <= r && EndsWith(r, remote.filename)
  {
    if dataHome.None? then Join(MirDatasetsDir, remote.filename)
    else Join(dataHome.value, remote.filename)
  }

  /**
   * The checksum gate of `download_from_remote`: hash the file and compare
   * with the expected digest. It passes exactly when the file's digest is the
   * expected one; a mismatch raises naming the path, the digest found and the
   * digest expected.
   */
  function Verify(fs: Fs, hash: Hash, path: string, expected: string): (r: Result<string, IoError>)
    ensures r.Ok? <==> path in fs.files && hash(fs.files[path]) == expected
    ensures r.Ok? ==> r.value == path
    ensures path in fs.files && hash(fs.files[path]) != expected
            ==> r == Err(ChecksumMismatch(path, hash(fs.files[path]), expected))
  {
    match FileMd5(fs, hash, path)
    case Err(e) => Err(e)
    case Ok(checksum) =>
      if expected != checksum then Err(ChecksumMismatch(path, checksum, expected))
      else Ok(path)
  }

  /** The path a member named `name` is written to when extracting under `saveDir`. */
  predicate IsMemberPath(p: string, saveDir: string, members: seq<Member>)
  {
    exists m :: m in members && p == Join(saveDir, m.name)
  }

  /**
   * `extractall(saveDir)` over file members, written in archive order (a later
   * member with the same path overwrites an earlier one). Every member ends up
   * on disk, and every other path keeps its contents.
   */
  function Extracted(files: map<string, Bytes>, saveDir: string, members: seq<Member>): (r: map<string, Bytes>)
    ensures forall m :: m in members ==> Join(saveDir, m.name) in r
    ensures forall p :: !IsMemberPath(p, saveDir, members) ==> (p in r <==> p in files)
    ensures forall p :: !IsMemberPath(p, saveDir, members) && p in files ==> r[p] == files[p]
  {
    if |members| == 0 then files
    else
      var init := members[..|members| - 1];
      var last := members[|members| - 1];
      assert members == init + [last];
      Extracted(files, saveDir, init)[Join(saveDir, last.name) := last.data]
  }

  /** The path `p` was created, removed or rewritten between `before` and `after`. */
  predicate Changed(before: map<string, Bytes>, after: map<string, Bytes>, p: string)
  {
    (p in before) != (p in after) || (p in before && p in after && before[p] != after[p])
  }

  /**
   * `unzip`/`untar`: open the archive, extract its members under `saveDir`,
   * and remove the archive file when `cleanup` holds. Opening a missing archive
   * or one the reader cannot parse raises and changes nothing.
   */
  function ExtractArchive(fs: Fs, reader: ArchiveReader, archive: string, saveDir: string, cleanup: bool)
    : (r: (Result<(), IoError>, Fs))
    ensures r.1.dirs == fs.dirs
    ensures r.0.Ok? <==> archive in fs.files && reader(fs.files[archive]).Some?
    ensures r.0.Err? ==> r.1 == fs
    ensures r.0.Ok? && cleanup ==> archive !in r.1.files
    ensures r.0.Ok? && !cleanup ==> archive in r.1.files
    ensures r.0.Ok? ==> var members := reader(fs.files[archive]).value;
      && (forall m :: m in members && Join(saveDir, m.name) != archive ==> Join(saveDir, m.name) in r.1.files)
      && (forall p :: Changed(fs.files, r.1.files, p) ==> p == archive || IsMemberPath(p, saveDir, members))
  {
    match Read(fs, archive)
    case Err(e) => (Err(e), fs)
    case Ok(data) =>
      match reader(data)
      case None => (Err(UnreadableArchive(archive)), fs)
      case Some(members) =>
        var files := Extracted(fs.files, saveDir, members);
        (Ok(()), fs.(files := if cleanup then files - {archive} else files))
  }

  /** The disk the helpers mutate. */
  class Disk {
    var files: map<string, Bytes>
    var dirs: set<string>

    function State(): Fs
      reads this
    {
      Fs(files, dirs)
    }

    constructor (fs: Fs)
      ensures State() == fs
    {
      files := fs.files;
      dirs := fs.dirs;
    }

    /**
     * `os.makedirs(p)`: the empty path raises `FileNotFoundError` and an
     * existing path `FileExistsError`, both changing nothing; otherwise the
     * directory is created (parents are not modelled).
     */
    method MakeDirs(p: string) returns (r: Result<(), IoError>)
      modifies this
      ensures p == "" ==> r == Err(FileNotFound(p))
      ensures p != "" && old(State().Exists(p)) ==> r == Err(FileExists(p))
      ensures r.Err? ==> files == old(files) && dirs == old(dirs)
      ensures r.Ok? <==> p != "" && !old(State().Exists(p))
      ensures r.Ok? ==> files == old(files) && dirs == old(dirs) + {p}
    {
      if p == "" {
        return Err(FileNotFound(p));
      }
      if State().Exists(p) {
        return Err(FileExists(p));
      }
      dirs := dirs + {p};
      r := Ok(());
    }

    /** `os.remove(p)` on an existing file. */
    method Remove(p: string)
      requires p in files
      modifies this
      ensures files == old(files) - {p} && dirs == old(dirs)
    {
      files := files - {p};
    }

    /**
     * `md5(path)`: read the file 4096 bytes at a time and feed each chunk to the
     * hash. The accumulator is modelled by the bytes fed so far, so the digest
     * is that of the whole file.
     */
    method Md5(hash: Hash, path: string) returns (r: Result<string, IoError>)
      ensures r == FileMd5(State(), hash, path)
    {
      if path !in files {
        r := if path in dirs then Err(IsADirectory(path)) else Err(FileNotFound(path));
        return;
      }
      var data := files[path];
      var fed: Bytes := [];
      var pos := 0;
      while pos < |data|
        invariant 0 <= pos <= |data|
        invariant fed == data[..pos]
        decreases |data| - pos
      {
        var end := if pos + ChunkSize <= |data| then pos + ChunkSize else |data|;
        var chunk := data[pos..end];
        fed := fed + chunk;
        pos := end;
      }
      assert fed == data;
      r := Ok(hash(fed));
    }

    /** `urlretrieve(url, filename=path)`. */
    method UrlRetrieve(fetch: Fetch, url: string, path: string) returns (r: Result<(), IoError>)
      modifies this
      ensures var spec := Retrieve(old(State()), fetch, url, path);
              && r.Ok? == spec.Ok?
              && (spec.Ok? ==> State() == spec.value)
              && (spec.Err? ==> State() == old(State()) && r.error == spec.error)
    {
      var body := fetch(url);
      if body.None? {
        r := Err(TransferFailed(url));
      } else if path in dirs {
        r := Err(IsADirectory(path));
      } else {
        files := files[path := body.value];
        r := Ok(());
      }
    }

    /** `extractall(saveDir)`: write each file member, in archive order. */
    method ExtractAll(members: seq<Member>, saveDir: string)
      modifies this
      ensures files == Extracted(old(files), saveDir, members) && dirs == old(dirs)
    {
      var i := 0;
      while i < |members|
        invariant 0 <= i <= |members|
        invariant files == Extracted(old(files), saveDir, members[..i])
        invariant dirs == old(dirs)
      {
        assert members[..i + 1][..i] == members[..i];
        files := files[Join(saveDir, members[i].name) := members[i].data];
        i := i + 1;
      }
      assert members[..|members|] == members;
    }
  }

  /** The body `unzip` and `untar` share; only the archive reader differs. */
  method Extract(disk: Disk, reader: ArchiveReader, archive: string, saveDir: string, cleanup: bool)
    returns (r: Result<(), IoError>)
    modifies disk
    ensures (r, disk.State()) == ExtractArchive(old(disk.State()), reader, archive, saveDir, cleanup)
  {
    if archive !in disk.files {
      r := if archive in disk.dirs then Err(IsADirectory(archive)) else Err(FileNotFound(archive));
      return;
    }
    var members := reader(disk.files[archive]);
    if members.None? {
      r := Err(UnreadableArchive(archive));
      return;
    }
    disk.ExtractAll(members.value, saveDir);
    if cleanup {
      disk.Remove(archive);
    }
    r := Ok(());
  }

  /** The checksum gate, run on the disk. */
  method VerifyChecksum(disk: Disk, hash: Hash, path: string, expected: string) returns (r: Result<string, IoError>)
    ensures r == Verify(disk.State(), hash, path, expected)
  {
    var checksum := disk.Md5(hash, path);
    if checksum.Err? {
      r := Err(checksum.error);
    } else if expected != checksum.value {
      r := Err(ChecksumMismatch(path, checksum.value, expected));
    } else {
      r := Ok(path);
    }
  }
}
