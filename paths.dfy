/** POSIX `os.path.join` and the default dataset directory. */
module Paths {
  import opened Text

  predicate IsAbsolute(p: string) {
    |p| > 0 && p[0] == '/'
  }

  /**
   * `os.path.join(a, b)` on POSIX: an absolute `b` discards `a`; otherwise `b`
   * is appended to `a` with one `/` between them unless `a` is empty or already
   * ends in `/`.
   */
  function Join(a: string, b: string): (r: string)
    ensures IsAbsolute(b) ==> r == b
    ensures !IsAbsolute(b) ==> a <= r && EndsWith(r, b)
  {
    if IsAbsolute(b) then b
    else if a == "" || a[|a| - 1] == '/' then a + b
    else a + "/" + b
  }

  /** `os.path.join(a, b, c)`. */
  function Join3(a: string, b: string, c: string): string
  {
    Join(Join(a, b), c)
  }

  /** Under a fixed directory, distinct relative names give distinct paths. */
  lemma JoinInjective(a: string, b1: string, b2: string)
    requires !IsAbsolute(b1) && !IsAbsolute(b2)
    requires Join(a, b1) == Join(a, b2)
    ensures b1 == b2
  {
    if a != "" && a[|a| - 1] != '/' {
      assert Join(a, b1) == (a + "/") + b1;
      assert Join(a, b2) == (a + "/") + b2;
      assert b1 == Join(a, b1)[|a| + 1..];
    } else {
      assert b1 == Join(a, b1)[|a|..];
    }
  }

  predicate AllSlashes(s: string) {
    forall i :: 0 <= i < |s| ==> s[i] == '/'
  }

  /** `s.rstrip('/')`. */
  function StripSlashes(s: string): (r: string)
    ensures r <= s
    ensures |r| > 0 ==> r[|r| - 1] != '/'
    ensures forall i :: |r| <= i < |s| ==> s[i] == '/'
  {
    if |s| > 0 && s[|s| - 1] == '/' then StripSlashes(s[..|s| - 1]) else s
  }

  /**
   * `os.path.dirname` on POSIX: the path up to its last `/`, without the
   * trailing slashes unless it is made of slashes only.
   */
  function Dirname(p: string): (r: string)
    ensures r <= p
    ensures r == "" <==> '/' !in p
  {
    var head := p[..|p| - |Basename(p)|];
    if AllSlashes(head) then head else StripSlashes(head)
  }

  /** A name without `/` joined under a directory that does not end in `/` has that directory as its dirname. */
  lemma DirnameJoin(dir: string, name: string)
    requires dir != "" && dir[|dir| - 1] != '/'
    requires name != "" && '/' !in name
    ensures Dirname(Join(dir, name)) == dir
  {
    var p := Join(dir, name);
    assert p == dir + "/" + name;
    var b := Basename(p);
    assert p[|p| - |name| - 1] == '/';
    assert b == name;
    var head := p[..|p| - |b|];
    assert head == dir + "/";
    assert !AllSlashes(head) by { assert head[|dir| - 1] != '/'; }
    assert StripSlashes(head) == StripSlashes(dir);
  }

  /**
   * `MIR_DATASETS_DIR`, which the package computes once at import as
   * `os.path.join(os.environ["HOME"], "mir_datasets")`. The environment is not
   * part of the model, so the home directory is a fixed stand-in.
   */
  const Home: string := "/home/user"
  const MirDatasetsDir: string := Join(Home, "mir_datasets")
}
