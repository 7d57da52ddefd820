/** Test discovery and selection across the generations of the collector.

    `core/collector.py` builds the list of selected units with filters;
    `src/bpytest/blender_module/bpytest/collector.py` instead flips the
    `selected` flag of each file's units.  Both find files through
    a recursive glob for `*.py`, skip those whose path relative to the search
    root matches an ignore pattern, and keep names that contain `_test.py`
    but not `test_`.  The older collectors (`bpytest/collector.py`,
    `bpytest/test_manager/collector.py`, the one in
    `addon/operator/run_tests.py`) walk the tree with `os.walk` and skip a
    whole directory when an ignore name occurs anywhere in its path.

    Globbing and walking are given as their results, `fnmatch` as a
    predicate. */
module Collector {
  import opened Strings
  import opened Seqs
  import opened Py
  import opened Paths
  import opened Entity
  import opened NameSelection

  /** `IGNORE_DIRS` (core/collector.py and the blender copy). */
  const IgnoreDirs: seq<string> :=
    ["__pycache__", ".git/*", ".vscode/*", ".idea/*", ".pytest_cache/*", "venv/*", "build/*", "dist/*", ".venv/*"]

  /** `ignore_dirs` of the `os.walk` collectors. */
  const WalkIgnoreDirs: seq<string> :=
    ["__pycache__", ".git", ".vscode", ".idea", ".pytest_cache", "venv", "build", "dist", "node_modules", ".venv"]

  /** `fnmatch.fnmatch(name, pattern)`. */
  type Matcher = (string, string) -> bool

  /** Some pattern of `patterns` matches `rel` (the loop that breaks at the
      first match). */
  predicate AnyMatch(fnmatch: Matcher, rel: string, patterns: seq<string>)
    decreases |patterns|
  {
    |patterns| > 0 && (fnmatch(rel, patterns[0]) || AnyMatch(fnmatch, rel, patterns[1..]))
  }

  lemma {:induction false} AnyMatchIffSome(fnmatch: Matcher, rel: string, patterns: seq<string>)
    ensures AnyMatch(fnmatch, rel, patterns) <==> exists i :: 0 <= i < |patterns| && fnmatch(rel, patterns[i])
    decreases |patterns|
  {
    if |patterns| > 0 {
      AnyMatchIffSome(fnmatch, rel, patterns[1..]);
      if exists i :: 0 <= i < |patterns| && fnmatch(rel, patterns[i]) {
        var i :| 0 <= i < |patterns| && fnmatch(rel, patterns[i]);
        if i > 0 {
          assert fnmatch(rel, patterns[1..][i - 1]);
        }
      }
    }
  }

  /** The `ValueError` of `relative_to` for a candidate not below the base
      the patterns are matched against. */
  datatype WalkError = NotRelative(path: string)

  /** The candidate is skipped by the pattern loop.  The loop only computes
      the relative path when there is a pattern to try. */
  function Skip(fnmatch: Matcher, base: string, patterns: seq<string>, p: string): Result<bool, WalkError> {
    if |patterns| == 0 then Ok(false)
    else match RelativeTo(p, base)
      case None => Err(NotRelative(p))
      case Some(rel) => Ok(AnyMatch(fnmatch, rel, patterns))
  }

  /** The candidate survives the pattern loop and the file checks. */
  predicate Kept(fnmatch: Matcher, base: string, patterns: seq<string>, accept: string -> bool, p: string) {
    Skip(fnmatch, base, patterns, p) == Ok(false) && accept(p)
  }

  function KeptBy(fnmatch: Matcher, base: string, patterns: seq<string>, accept: string -> bool): string -> bool {
    p => Kept(fnmatch, base, patterns, accept, p)
  }

  /** The loop shared by `get_py_files_recursive` and `collect_conftest_files`
      over globbed candidates: patterns first, then the file checks. */
  function Sift(fnmatch: Matcher, base: string, patterns: seq<string>, accept: string -> bool, candidates: seq<string>)
    : (r: Result<seq<string>, WalkError>)
    ensures r.Err? <==> |patterns| > 0 && exists k :: 0 <= k < |candidates| && !IsRelativeTo(candidates[k], base)
    ensures r.Ok? ==> r.value == Filter(candidates, KeptBy(fnmatch, base, patterns, accept))
    decreases |candidates|
  {
    if |candidates| == 0 then Ok([])
    else
      var p := candidates[0];
      var rest := Sift(fnmatch, base, patterns, accept, candidates[1..]);
      assert forall k :: 1 <= k < |candidates| ==> candidates[k] == candidates[1..][k - 1];
      match Skip(fnmatch, base, patterns, p)
      case Err(e) => Err(e)
      case Ok(skip) =>
        if rest.Err? then rest
        else if !skip && accept(p) then Ok([p] + rest.value)
        else rest
  }

  /** A kept file is a candidate that no pattern matches, relative to the base. */
  lemma SiftMembers(fnmatch: Matcher, base: string, patterns: seq<string>, accept: string -> bool, candidates: seq<string>, p: string)
    requires Sift(fnmatch, base, patterns, accept, candidates).Ok?
    ensures p in Sift(fnmatch, base, patterns, accept, candidates).value <==>
      p in candidates && accept(p)
      && (|patterns| == 0 || forall i :: 0 <= i < |patterns| ==> !fnmatch(RelativeTo(p, base).value, patterns[i]))
  {
    FilterMembers(candidates, KeptBy(fnmatch, base, patterns, accept), p);
    if p in candidates && |patterns| > 0 {
      assert IsRelativeTo(p, base);
      AnyMatchIffSome(fnmatch, RelativeTo(p, base).value, patterns);
    }
  }

  /** The asymmetric file-name rule of `get_py_files_recursive`. */
  predicate TestFileName(name: string) {
    Contains(name, "_test.py") && !Contains(name, "test_")
  }

  /** A globbed path qualifies as a test file. */
  predicate Qualifies(fs: FileSystem, p: string) {
    TestFileName(Name(p)) && IsFile(fs, p) && EndsWith(Name(p), ".py")
  }

  function QualifiesIn(fs: FileSystem): string -> bool {
    p => Qualifies(fs, p)
  }

  /** `get_py_files_recursive(path, norecursedirs)`: `globbed` is what
      the recursive glob for `*.py` yields. */
  function PyFiles(fs: FileSystem, fnmatch: Matcher, root: string, patterns: seq<string>, globbed: seq<string>)
    : (r: Result<seq<string>, WalkError>)
    ensures r.Ok? ==> forall k :: 0 <= k < |r.value| ==> Qualifies(fs, r.value[k])
    ensures r.Ok? ==> IsSubsequence(r.value, globbed)
  {
    var r := Sift(fnmatch, root, patterns, QualifiesIn(fs), globbed);
    if r.Ok? then
      assert forall k :: 0 <= k < |r.value| ==> QualifiesIn(fs)(r.value[k]) by {
        forall k | 0 <= k < |r.value| ensures QualifiesIn(fs)(r.value[k]) {
          assert KeptBy(fnmatch, root, patterns, QualifiesIn(fs))(r.value[k]);
        }
      }
      r
    else r
  }

  /** Globbing yields paths below the root, so the walk never raises. */
  lemma PyFilesBelowRoot(fs: FileSystem, fnmatch: Matcher, root: string, patterns: seq<string>, globbed: seq<string>)
    requires forall k :: 0 <= k < |globbed| ==> IsRelativeTo(globbed[k], root)
    ensures PyFiles(fs, fnmatch, root, patterns, globbed).Ok?
  {
  }

  function IsConftest(fs: FileSystem): string -> bool {
    p => IsFile(fs, p) && EndsWith(Name(p), ".py")
  }

  /** `collect_conftest_files(path, norecursedirs)`: `globbed` is what
      the recursive glob for `conftest.py` yields; patterns are matched against the
      path relative to the working directory `cwd`, not to `path`, so a
      conftest outside the working directory raises once there is a
      pattern to try. */
  function ConftestFiles(fs: FileSystem, fnmatch: Matcher, cwd: string, patterns: seq<string>, globbed: seq<string>)
    : (r: Result<seq<string>, WalkError>)
    ensures r.Err? <==> |patterns| > 0 && exists k :: 0 <= k < |globbed| && !IsRelativeTo(globbed[k], cwd)
    ensures r.Ok? ==> forall k :: 0 <= k < |r.value| ==> IsFile(fs, r.value[k])
    ensures r.Ok? ==> IsSubsequence(r.value, globbed)
  {
    var r := Sift(fnmatch, cwd, patterns, IsConftest(fs), globbed);
    if r.Ok? then
      assert forall k :: 0 <= k < |r.value| ==> IsConftest(fs)(r.value[k]) by {
        forall k | 0 <= k < |r.value| ensures IsConftest(fs)(r.value[k]) {
          assert KeptBy(fnmatch, cwd, patterns, IsConftest(fs))(r.value[k]);
        }
      }
      r
    else r
  }

  // ------------------------------------------------------------- core/ list

  /** Everything a collector leaves behind.  `classFiles` is the class-level
      `test_files` list shared by every instance: `append` mutates it, while
      the directory case assigns an instance attribute and leaves it alone.
      `norecursedirs` is the caller's list after `extend(IGNORE_DIRS)`. */
  datatype Collection = Collection(
    files: seq<TestFile>,
    units: seq<TestUnit>,
    selected: seq<TestUnit>,
    norecursedirs: seq<string>,
    classFiles: seq<TestFile>)

  /** The units of all files, file by file (`_load_all_test_units`). */
  function AllUnits(files: seq<TestFile>): seq<TestUnit>
    decreases |files|
  {
    if |files| == 0 then [] else files[0].units + AllUnits(files[1..])
  }

  lemma {:induction false} AllUnitsAppend(a: seq<TestFile>, b: seq<TestFile>)
    ensures AllUnits(a + b) == AllUnits(a) + AllUnits(b)
    decreases |a|
  {
    if |a| == 0 {
      assert a + b == b;
    } else {
      assert (a + b)[1..] == a[1..] + b;
      AllUnitsAppend(a[1..], b);
    }
  }

  function ParseAll(fs: FileSystem, cwd: string, paths: seq<string>): (files: seq<TestFile>)
    requires forall k :: 0 <= k < |paths| ==> IsFile(fs, paths[k])
    ensures |files| == |paths|
    ensures forall k :: 0 <= k < |files| ==> files[k] == MakeTestFile(fs, cwd, paths[k])
  {
    seq(|paths|, k requires 0 <= k < |paths| => MakeTestFile(fs, cwd, paths[k]))
  }

  /** The test files a collector instance sees, and the class-level list
      after it: a file path is appended to the shared list, a directory
      path replaces the instance's view by the walked files, and a path
      that is neither leaves the instance looking at whatever the shared
      list already held. */
  function GatherFiles(fs: FileSystem, cwd: string, fnmatch: Matcher, cs: CollectorString, patterns: seq<string>,
                       globbed: seq<string>, classFiles: seq<TestFile>)
    : (r: Result<(seq<TestFile>, seq<TestFile>), WalkError>)
    ensures r.Ok? && IsFile(fs, cs.path) ==> r.value.1 == classFiles + [MakeTestFile(fs, cwd, cs.path)]
    ensures r.Ok? && !IsFile(fs, cs.path) ==> r.value.1 == classFiles
    ensures r.Ok? && !IsDir(fs, cs.path) ==> r.value.0 == r.value.1
    ensures r.Ok? && IsDir(fs, cs.path) ==>
      PyFiles(fs, fnmatch, cs.path, patterns, globbed).Ok?
      && r.value.0 == ParseAll(fs, cwd, PyFiles(fs, fnmatch, cs.path, patterns, globbed).value)
    ensures r.Err? ==> IsDir(fs, cs.path) && PyFiles(fs, fnmatch, cs.path, patterns, globbed).Err?
  {
    var shared := if IsFile(fs, cs.path) then classFiles + [MakeTestFile(fs, cwd, cs.path)] else classFiles;
    if IsDir(fs, cs.path) then
      match PyFiles(fs, fnmatch, cs.path, patterns, globbed)
      case Err(e) => Err(e)
      case Ok(paths) => Ok((ParseAll(fs, cwd, paths), shared))
    else Ok((shared, shared))
  }

  function PassesFilter(fs: FileSystem, cs: CollectorString): TestUnit -> bool {
    (u: TestUnit) => Passes(fs, cs, u)
  }

  function HasKeyword(keyword: string): TestUnit -> bool {
    (u: TestUnit) => Contains(u.name, keyword)
  }

  /** `_filter_by_collector_string` of core/collector.py. */
  function FilterByCollectorString(fs: FileSystem, cs: CollectorString, units: seq<TestUnit>): (r: seq<TestUnit>)
    ensures IsSubsequence(r, units)
    ensures forall k :: 0 <= k < |r| ==> Passes(fs, cs, r[k])
  {
    var r := Filter(units, PassesFilter(fs, cs));
    assert forall k :: 0 <= k < |r| ==> PassesFilter(fs, cs)(r[k]);
    r
  }

  /** `filter_by_keyword`: the units whose name contains the keyword, in order. */
  function FilterByKeyword(units: seq<TestUnit>, keyword: string): (r: seq<TestUnit>)
    ensures IsSubsequence(r, units)
    ensures forall k :: 0 <= k < |r| ==> Contains(r[k].name, keyword)
  {
    var r := Filter(units, HasKeyword(keyword));
    assert forall k :: 0 <= k < |r| ==> HasKeyword(keyword)(r[k]);
    r
  }

  /** The keyword filter keeps exactly the units containing the keyword,
      and the empty keyword keeps them all. */
  lemma KeywordFilterExact(units: seq<TestUnit>, keyword: string, u: TestUnit)
    ensures u in FilterByKeyword(units, keyword) <==> u in units && Contains(u.name, keyword)
    ensures FilterByKeyword(units, "") == units
  {
    FilterMembers(units, HasKeyword(keyword), u);
    forall k | 0 <= k < |units| ensures HasKeyword("")(units[k]) {
      EmptyIsContained(units[k].name);
    }
    FilterAll(units, HasKeyword(""));
  }

  /** `Collector(collector_string, keyword, norecursedirs)` of core/. */
  function CoreCollect(fs: FileSystem, cwd: string, fnmatch: Matcher, cs: CollectorString, keyword: string,
                       norecursedirs: seq<string>, globbed: seq<string>, classFiles: seq<TestFile>)
    : (r: Result<Collection, WalkError>)
    ensures r.Ok? ==> r.value.norecursedirs == norecursedirs + IgnoreDirs
    ensures r.Ok? ==> r.value.units == AllUnits(r.value.files)
    ensures r.Ok? ==> IsSubsequence(r.value.selected, r.value.units)
    ensures r.Err? <==> GatherFiles(fs, cwd, fnmatch, cs, norecursedirs + IgnoreDirs, globbed, classFiles).Err?
  {
    var patterns := norecursedirs + IgnoreDirs;
    match GatherFiles(fs, cwd, fnmatch, cs, patterns, globbed, classFiles)
    case Err(e) => Err(e)
    case Ok((files, shared)) =>
      var units := AllUnits(files);
      var byPath := FilterByCollectorString(fs, cs, units);
      var selected := if keyword != "" then FilterByKeyword(byPath, keyword) else byPath;
      assert IsSubsequence(selected, units) by {
        if keyword != "" {
          SubsequenceTrans(selected, byPath, units);
        }
      }
      Ok(Collection(files, units, selected, patterns, shared))
  }

  /** The reported tallies: collected, deselected, selected. */
  function Tally(c: Collection): (int, int, int) {
    (|c.units|, |c.units| - |c.selected|, |c.selected|)
  }

  /** The deselected count is the collected count minus the selected one,
      and is never negative. */
  lemma TallyConsistent(c: Collection)
    requires IsSubsequence(c.selected, c.units)
    ensures Tally(c).0 == Tally(c).1 + Tally(c).2
    ensures Tally(c).1 >= 0
  {
    SubsequenceShorter(c.selected, c.units);
  }

  lemma {:induction false} SubsequenceShorter<T>(a: seq<T>, b: seq<T>)
    requires IsSubsequence(a, b)
    ensures |a| <= |b|
    decreases |b|
  {
    if |a| > 0 {
      if a[0] == b[0] {
        SubsequenceShorter(a[1..], b[1..]);
      } else {
        SubsequenceShorter(a, b[1..]);
      }
    }
  }

  lemma {:induction false} SubsequenceTrans<T>(a: seq<T>, b: seq<T>, c: seq<T>)
    requires IsSubsequence(a, b) && IsSubsequence(b, c)
    ensures IsSubsequence(a, c)
    decreases |c|
  {
    if |a| > 0 {
      assert |b| > 0 && |c| > 0;
      if b[0] == c[0] {
        if a[0] == b[0] {
          SubsequenceTrans(a[1..], b[1..], c[1..]);
        } else {
          SubsequenceTrans(a, b[1..], c[1..]);
          SubsequenceSkip(a, c);
        }
      } else {
        SubsequenceTrans(a, b, c[1..]);
        SubsequenceSkip(a, c);
      }
    }
  }

  /** A selected unit is exactly a collected unit that passes the
      collector-string filter and contains the keyword. */
  lemma CoreSelectedExactly(fs: FileSystem, cwd: string, fnmatch: Matcher, cs: CollectorString, keyword: string,
                            norecursedirs: seq<string>, globbed: seq<string>, classFiles: seq<TestFile>, u: TestUnit)
    requires CoreCollect(fs, cwd, fnmatch, cs, keyword, norecursedirs, globbed, classFiles).Ok?
    ensures var c := CoreCollect(fs, cwd, fnmatch, cs, keyword, norecursedirs, globbed, classFiles).value;
      u in c.selected <==> u in c.units && Passes(fs, cs, u) && Contains(u.name, keyword)
  {
    var c := CoreCollect(fs, cwd, fnmatch, cs, keyword, norecursedirs, globbed, classFiles).value;
    var byPath := FilterByCollectorString(fs, cs, c.units);
    FilterMembers(c.units, PassesFilter(fs, cs), u);
    if keyword != "" {
      FilterMembers(byPath, HasKeyword(keyword), u);
    } else {
      EmptyIsContained(u.name);
    }
  }

  // ---------------------------------------------------- blender flag-based

  /** The selection pass of the blender collector on one file. */
  function SelectFile(fs: FileSystem, cs: CollectorString, keyword: string, tf: TestFile): (r: TestFile)
    ensures r.filepath == tf.filepath && |r.units| == |tf.units|
  {
    var byPath := SelectByCollectorString(fs, cs, tf.units);
    TestFile(tf.filepath, if keyword != "" then SelectByKeyword(byPath, keyword) else byPath)
  }

  function SelectFiles(fs: FileSystem, cs: CollectorString, keyword: string, files: seq<TestFile>): (r: seq<TestFile>)
    ensures |r| == |files|
    ensures forall i :: 0 <= i < |r| ==> r[i] == SelectFile(fs, cs, keyword, files[i])
  {
    seq(|files|, i requires 0 <= i < |files| => SelectFile(fs, cs, keyword, files[i]))
  }

  /** `Collector(collector_string, norecursedirs, keyword)` of the blender
      module: gather the files, then select within each file.  When the
      instance shares the class-level list, the flags it sets are seen
      through that list too. */
  function BlenderCollect(fs: FileSystem, cwd: string, fnmatch: Matcher, cs: CollectorString, keyword: string,
                          norecursedirs: seq<string>, globbed: seq<string>, classFiles: seq<TestFile>)
    : (r: Result<Collection, WalkError>)
    ensures r.Ok? ==> r.value.norecursedirs == norecursedirs + IgnoreDirs
    ensures r.Ok? ==> r.value.units == AllUnits(r.value.files)
    ensures r.Err? <==> GatherFiles(fs, cwd, fnmatch, cs, norecursedirs + IgnoreDirs, globbed, classFiles).Err?
    ensures r.Ok? ==> var g := GatherFiles(fs, cwd, fnmatch, cs, norecursedirs + IgnoreDirs, globbed, classFiles).value;
      r.value.files == SelectFiles(fs, cs, keyword, g.0)
      && r.value.classFiles == (if IsDir(fs, cs.path) then g.1 else r.value.files)
  {
    var patterns := norecursedirs + IgnoreDirs;
    match GatherFiles(fs, cwd, fnmatch, cs, patterns, globbed, classFiles)
    case Err(e) => Err(e)
    case Ok((gathered, shared)) =>
      var files := SelectFiles(fs, cs, keyword, gathered);
      var units := AllUnits(files);
      Ok(Collection(files, units, Filter(units, IsSelected), patterns, if IsDir(fs, cs.path) then shared else files))
  }

  predicate IsSelectedUnit(u: TestUnit) {
    u.selected
  }

  const IsSelected: TestUnit -> bool := (u: TestUnit) => IsSelectedUnit(u)

  /** `get_total_test_units(selected_only)`. */
  function TotalUnits(files: seq<TestFile>, selectedOnly: bool): nat
    decreases |files|
  {
    if |files| == 0 then 0
    else
      var here := if selectedOnly then CountWhere(files[0].units, IsSelected) else |files[0].units|;
      here + TotalUnits(files[1..], selectedOnly)
  }

  /** The selected total never exceeds the total, so the printed
      deselected count is their (non-negative) difference. */
  lemma {:induction false} SelectedTotalBounded(files: seq<TestFile>)
    ensures TotalUnits(files, true) <= TotalUnits(files, false)
    ensures TotalUnits(files, true) == |Filter(AllUnits(files), IsSelected)|
    decreases |files|
  {
    if |files| > 0 {
      SelectedTotalBounded(files[1..]);
      CountIsFilterLength(files[0].units, IsSelected);
      FilterAppend(files[0].units, AllUnits(files[1..]), IsSelected);
    }
  }

  // ----------------------------------------------- the two generations agree

  /** The combined selection predicate of both generations. */
  function Chosen(fs: FileSystem, cs: CollectorString, keyword: string): TestUnit -> bool {
    (u: TestUnit) => Passes(fs, cs, u) && Contains(u.name, keyword)
  }

  function Unflag(us: seq<TestUnit>): (r: seq<TestUnit>)
    ensures |r| == |us|
  {
    seq(|us|, k requires 0 <= k < |us| => us[k].(selected := false))
  }

  predicate AllFresh(files: seq<TestFile>) {
    forall i, k :: 0 <= i < |files| && 0 <= k < |files[i].units| ==> !files[i].units[k].selected
  }

  /** On one file of unselected units, the flags set are exactly `Chosen`. */
  lemma SelectFileFlags(fs: FileSystem, cs: CollectorString, keyword: string, tf: TestFile)
    requires forall k :: 0 <= k < |tf.units| ==> !tf.units[k].selected
    ensures var r := SelectFile(fs, cs, keyword, tf).units;
      forall k :: 0 <= k < |r| ==> r[k] == tf.units[k].(selected := Chosen(fs, cs, keyword)(tf.units[k]))
  {
    var byPath := SelectByCollectorString(fs, cs, tf.units);
    if keyword == "" {
      forall k | 0 <= k < |tf.units| ensures Contains(tf.units[k].name, keyword) {
        EmptyIsContained(tf.units[k].name);
      }
    } else {
      SelectedIffBoth(fs, cs, tf.units, keyword);
    }
  }

  /** Marked units, read back through their flags, are the filtered units. */
  lemma {:induction false} MarkedFilter(us: seq<TestUnit>, vs: seq<TestUnit>, p: TestUnit -> bool)
    requires |vs| == |us|
    requires forall k :: 0 <= k < |us| ==> !us[k].selected && vs[k] == us[k].(selected := p(us[k]))
    ensures Unflag(Filter(vs, IsSelected)) == Filter(us, p)
    decreases |us|
  {
    if |us| > 0 {
      MarkedFilter(us[1..], vs[1..], p);
      assert us[0] == vs[0].(selected := false);
      if p(us[0]) {
        assert Filter(vs, IsSelected) == [vs[0]] + Filter(vs[1..], IsSelected);
        assert Unflag([vs[0]] + Filter(vs[1..], IsSelected)) == [us[0]] + Unflag(Filter(vs[1..], IsSelected));
      }
    }
  }

  lemma {:induction false} FilesMarked(fs: FileSystem, cs: CollectorString, keyword: string, files: seq<TestFile>)
    requires AllFresh(files)
    ensures Unflag(Filter(AllUnits(SelectFiles(fs, cs, keyword, files)), IsSelected))
      == Filter(AllUnits(files), Chosen(fs, cs, keyword))
    decreases |files|
  {
    if |files| > 0 {
      var sel := SelectFiles(fs, cs, keyword, files);
      assert sel[1..] == SelectFiles(fs, cs, keyword, files[1..]);
      assert AllFresh(files[1..]) by {
        forall i, k | 0 <= i < |files[1..]| && 0 <= k < |files[1..][i].units|
          ensures !files[1..][i].units[k].selected
        {
          assert files[1..][i] == files[i + 1];
        }
      }
      FilesMarked(fs, cs, keyword, files[1..]);
      SelectFileFlags(fs, cs, keyword, files[0]);
      MarkedFilter(files[0].units, sel[0].units, Chosen(fs, cs, keyword));
      FilterAppend(sel[0].units, AllUnits(sel[1..]), IsSelected);
      FilterAppend(files[0].units, AllUnits(files[1..]), Chosen(fs, cs, keyword));
      UnflagAppend(Filter(sel[0].units, IsSelected), Filter(AllUnits(sel[1..]), IsSelected));
    }
  }

  lemma UnflagAppend(a: seq<TestUnit>, b: seq<TestUnit>)
    ensures Unflag(a + b) == Unflag(a) + Unflag(b)
  {
  }

  /** Over the same fresh files, the units the core collector selects are
      the units the blender collector flags, in the same order. */
  lemma GenerationsAgree(fs: FileSystem, cs: CollectorString, keyword: string, files: seq<TestFile>)
    requires AllFresh(files)
    ensures var units := AllUnits(files);
      var byPath := FilterByCollectorString(fs, cs, units);
      Unflag(Filter(AllUnits(SelectFiles(fs, cs, keyword, files)), IsSelected))
        == (if keyword != "" then FilterByKeyword(byPath, keyword) else byPath)
  {
    var units := AllUnits(files);
    FilesMarked(fs, cs, keyword, files);
    if keyword != "" {
      FilterFilter(units, PassesFilter(fs, cs), HasKeyword(keyword), Chosen(fs, cs, keyword));
    } else {
      forall k | 0 <= k < |units| ensures Chosen(fs, cs, keyword)(units[k]) == PassesFilter(fs, cs)(units[k]) {
        EmptyIsContained(units[k].name);
      }
      FilterCongruent(units, Chosen(fs, cs, keyword), PassesFilter(fs, cs));
    }
  }

  // ------------------------------------------------------- os.walk collectors

  /** One step of `os.walk`: a directory and the names of its files. */
  datatype WalkEntry = WalkEntry(root: string, files: seq<string>)

  /** `any(ignore_dir in root for ignore_dir in ignore_dirs)`. */
  predicate IgnoredRoot(root: string, ignore: seq<string>) {
    exists i :: 0 <= i < |ignore| && Contains(root, ignore[i])
  }

  /** The name rule of the walk collectors: `.py`, then the asymmetric rule. */
  predicate WalkFileName(name: string) {
    EndsWith(name, ".py") && TestFileName(name)
  }

  /** The files of one walk step that pass the name rule, as `Path(root, file)`. */
  function StepFiles(e: WalkEntry): (r: seq<string>)
    ensures |r| <= |e.files|
    ensures forall p :: p in r <==> exists f :: f in e.files && WalkFileName(f) && p == JoinPath(e.root, f)
    decreases |e.files|
  {
    if |e.files| == 0 then []
    else
      var rest := StepFiles(WalkEntry(e.root, e.files[1..]));
      assert forall f :: f in e.files <==> f == e.files[0] || f in e.files[1..];
      if WalkFileName(e.files[0]) then [JoinPath(e.root, e.files[0])] + rest else rest
  }

  /** `get_py_files_recursive` of the walk collectors; `ignore` is empty for
      the add-on operator's collector, which has no ignore rule. */
  function WalkPyFiles(walk: seq<WalkEntry>, ignore: seq<string>): (r: seq<string>)
    ensures forall p :: p in r <==> exists i :: 0 <= i < |walk| && !IgnoredRoot(walk[i].root, ignore) && p in StepFiles(walk[i])
    decreases |walk|
  {
    if |walk| == 0 then []
    else
      var rest := WalkPyFiles(walk[1..], ignore);
      assert forall i :: 1 <= i < |walk| ==> walk[i] == walk[1..][i - 1];
      (if IgnoredRoot(walk[0].root, ignore) then [] else StepFiles(walk[0])) + rest
  }

  /** A walk step whose root contains an ignore name contributes nothing,
      wherever in the path the name occurs. */
  lemma IgnoredStepContributesNothing(e: WalkEntry, ignore: seq<string>)
    requires IgnoredRoot(e.root, ignore)
    ensures WalkPyFiles([e], ignore) == []
  {
  }

  /** Why the legacy collector fails: `_filter_by_collector_string` calls
      `unit.test_string()`, which its `TestUnit` does not define. */
  datatype LegacyError = NoTestStringAttribute

  /** `Collector(collector_string, keyword)` of bpytest/collector.py.  The
      collector-string filter raises `AttributeError` on the first unit, so
      only a collection without units gets as far as the keyword filter. */
  function LegacyCollect(fs: FileSystem, cwd: string, text: string, keyword: string, walk: seq<WalkEntry>,
                         classFiles: seq<TestFile>)
    : (r: Result<Collection, LegacyError>)
    ensures r.Err? <==> |AllUnits(LegacyFiles(fs, cwd, text, walk, classFiles).0)| > 0
    ensures r.Ok? ==> r.value.selected == [] && r.value.units == []
  {
    var (files, shared) := LegacyFiles(fs, cwd, text, walk, classFiles);
    var units := AllUnits(files);
    if |units| > 0 then Err(NoTestStringAttribute)
    else Ok(Collection(files, units, FilterByKeyword([], keyword), [], shared))
  }

  /** The file list of the legacy collector and the class-level list after it. */
  function LegacyFiles(fs: FileSystem, cwd: string, text: string, walk: seq<WalkEntry>, classFiles: seq<TestFile>)
    : (seq<TestFile>, seq<TestFile>)
  {
    var path := Absolute(cwd, FirstPart(text, Marker));
    var shared := if IsFile(fs, path) then classFiles + [MakeTestFile(fs, cwd, path)] else classFiles;
    if IsDir(fs, path) then
      var paths := Filter(WalkPyFiles(walk, WalkIgnoreDirs), IsFileIn(fs));
      (ParseAll(fs, cwd, paths), shared)
    else (shared, shared)
  }

  function IsFileIn(fs: FileSystem): string -> bool {
    p => IsFile(fs, p)
  }

  /** The name-based collectors of `bpytest/test_manager/collector.py`
      (ignore list `WalkIgnoreDirs`, `[""]` selects all) and of
      `addon/operator/run_tests.py` (no ignore list, no `[""]` rule): a file
      path is appended to the class-level list, a directory replaces it
      with the files the walk finds.  Walked paths that are not readable
      files are not modelled. */
  function ManagerCollect(fs: FileSystem, path: string, selection: seq<string>, blankMeansAll: bool,
                          ignore: seq<string>, walk: seq<WalkEntry>, classFiles: seq<NamedFile>)
    : (r: (seq<NamedFile>, seq<NamedFile>))
    ensures IsFile(fs, path) ==> r.1 == classFiles + [MakeNamedFile(fs, path, selection, blankMeansAll)]
    ensures !IsFile(fs, path) ==> r.1 == classFiles
    ensures !IsDir(fs, path) ==> r.0 == r.1
    ensures IsDir(fs, path) ==> |r.0| == |Filter(WalkPyFiles(walk, ignore), IsFileIn(fs))|
    ensures IsDir(fs, path) ==> forall i :: 0 <= i < |r.0| ==>
      r.0[i].filepath in WalkPyFiles(walk, ignore) && IsFile(fs, r.0[i].filepath)
    ensures WellSelected(classFiles) ==> WellSelected(r.0) && WellSelected(r.1)
  {
    var shared := if IsFile(fs, path) then classFiles + [MakeNamedFile(fs, path, selection, blankMeansAll)] else classFiles;
    assert IsFile(fs, path) ==> WellSelected([MakeNamedFile(fs, path, selection, blankMeansAll)]) by {
      if IsFile(fs, path) {
        var made := MakeNamedFile(fs, path, selection, blankMeansAll);
        SelectedSublist(made.found, selection, blankMeansAll, "");
      }
    }
    if IsDir(fs, path) then
      var paths := Filter(WalkPyFiles(walk, ignore), IsFileIn(fs));
      assert forall i :: 0 <= i < |paths| ==> IsFile(fs, paths[i]) && paths[i] in WalkPyFiles(walk, ignore) by {
        forall i | 0 <= i < |paths| ensures IsFile(fs, paths[i]) && paths[i] in WalkPyFiles(walk, ignore) {
          FilterMembers(WalkPyFiles(walk, ignore), IsFileIn(fs), paths[i]);
        }
      }
      var files := seq(|paths|, i requires 0 <= i < |paths| => MakeNamedFile(fs, paths[i], selection, blankMeansAll));
      MadeFilesWellSelected(fs, paths, selection, blankMeansAll);
      (files, shared)
    else (shared, shared)
  }
}
