/** The `pathlib` operations the collectors rely on, for POSIX paths that are
    already in normal form (no `.` or `..` components, no doubled or
    trailing separators), as plain strings. */
module Paths {
  import opened Strings

  /** The part of the file system the runner looks at: every regular file
      with its lines as `readlines` returns them, and every directory. */
  datatype FileSystem = FileSystem(files: map<string, seq<string>>, dirs: set<string>)

  /** `Path(p).is_file()`. */
  predicate IsFile(fs: FileSystem, p: string) {
    p in fs.files
  }

  /** `Path(p).is_dir()`. */
  predicate IsDir(fs: FileSystem, p: string) {
    p in fs.dirs
  }

  /** `base` followed by a separator, so that `Dir(base) + name` is a child. */
  function Dir(base: string): string {
    if EndsWith(base, "/") then base else base + "/"
  }

  /** `base / name`. */
  function JoinPath(base: string, name: string): string {
    Dir(base) + name
  }

  /** `Path(p).absolute()` with `cwd` the working directory. */
  function Absolute(cwd: string, p: string): (r: string)
    ensures StartsWith(p, "/") ==> r == p
    ensures !StartsWith(p, "/") && p != "" && p != "." ==> r == JoinPath(cwd, p)
  {
    if StartsWith(p, "/") then p
    else if p == "" || p == "." then cwd
    else JoinPath(cwd, p)
  }

  /** `p.is_relative_to(base)`: `p` is `base` or lies below it. */
  predicate IsRelativeTo(p: string, base: string) {
    p == base || StartsWith(p, Dir(base))
  }

  /** `p.relative_to(base)`; `None` is the `ValueError` raised when `p` is
      not below `base`. */
  function RelativeTo(p: string, base: string): (r: Option<string>)
    ensures r.Some? <==> IsRelativeTo(p, base)
    ensures r.Some? && p != base ==> p == Dir(base) + r.value
  {
    if p == base then Some(".")
    else if StartsWith(p, Dir(base)) then Some(p[|Dir(base)|..])
    else None
  }

  /** Relating a child path back to its parent gives the child's name. */
  lemma RelativeToJoin(base: string, rel: string)
    requires rel != ""
    ensures RelativeTo(JoinPath(base, rel), base) == Some(rel)
  {
    var p := JoinPath(base, rel);
    assert p[..|Dir(base)|] == Dir(base);
    assert p != base by {
      assert |p| > |base|;
    }
  }

  /** `p.name`: the last component. */
  function Name(p: string): (r: string)
    ensures !Contains(r, "/")
  {
    var parts := Split(p, "/");
    SplitPartsAvoidSep(p, "/");
    parts[|parts| - 1]
  }

  /** `p.parent`: everything before the last separator (`/` for a top-level
      entry, `.` for a bare name). */
  function Parent(p: string): string {
    var parts := Split(p, "/");
    if |parts| == 1 then "."
    else
      var front := Join(parts[..|parts| - 1], "/");
      if front == "" then "/" else front
  }

  /** A path with a separator is its parent joined with its name. */
  lemma ParentJoinName(p: string)
    requires Contains(p, "/")
    requires Parent(p) != "/"
    ensures Parent(p) + "/" + Name(p) == p
  {
    var parts := Split(p, "/");
    SplitCountsOccurrence(p, "/");
    SplitJoin(p, "/");
    JoinLast(parts, "/");
  }

  lemma {:induction false} JoinLast(parts: seq<string>, sep: string)
    requires |parts| >= 2
    ensures Join(parts, sep) == Join(parts[..|parts| - 1], sep) + sep + parts[|parts| - 1]
    decreases |parts|
  {
    if |parts| > 2 {
      JoinLast(parts[1..], sep);
      assert parts[1..][..|parts[1..]| - 1] == parts[..|parts| - 1][1..];
    }
  }
}
