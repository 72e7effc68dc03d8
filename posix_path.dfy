/** Python's posixpath.join for two components, shared by both build scripts. */
module PosixPath {

  /** os.path.join(a, b): an absolute b replaces a; otherwise b is appended,
      with a '/' inserted unless a is empty or already ends with one. */
  function PathJoin(a: string, b: string): string
  {
    if |b| > 0 && b[0] == '/' then b
    else if a == [] || a[|a| - 1] == '/' then a + b
    else a + "/" + b
  }

  /** Joining a relative name onto a non-empty base yields a longer path that
      ends with the name, so it never equals the bare name. */
  lemma JoinRelative(a: string, b: string)
    requires a != [] && (b == [] || b[0] != '/')
    ensures |PathJoin(a, b)| > |b|
    ensures PathJoin(a, b)[|PathJoin(a, b)| - |b|..] == b
    ensures PathJoin(a, b) != b
  {
    var r := PathJoin(a, b);
    if a[|a| - 1] == '/' {
      assert r == a + b;
    } else {
      assert r == (a + "/") + b;
    }
  }
}
