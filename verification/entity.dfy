/** Collector strings, test units and test files (`core/entity.py`, with the
    identical copy in `src/bpytest/blender_module/bpytest/entity.py` and the
    older `bpytest/entity.py`).

    A test file is parsed textually: every line containing `def test_`
    becomes a unit.  Units carry a `selected` flag that the path/unit filter
    only ever sets and the keyword filter only ever clears. */
module Entity {
  import opened Strings
  import opened Seqs
  import opened Paths

  /** `CollectorString`: the text as given (`str()` returns it), the absolute
      path before the first `::`, the directory it designates and the unit
      name after it (`""` when there is none). */
  datatype CollectorString = CollectorString(text: string, path: string, directory: string, unit: string)

  /** `TestUnit`: where it lives, its name, its identity as a collector
      string, and the run's outcome. */
  datatype TestUnit = TestUnit(
    filepath: string,
    name: string,
    cs: CollectorString,
    success: bool,
    lines: seq<string>,
    selected: bool)

  /** `TestFile`: a path and the units parsed from it. */
  datatype TestFile = TestFile(filepath: string, units: seq<TestUnit>)

  const Marker := "::"

  /** The text between the first and the second `::` of `rest`-style
      strings: a prefix of `s` free of `::` that ends at `s`'s end or at a
      `::`. */
  predicate Segment(s: string, seg: string) {
    StartsWith(s, seg) && !Contains(seg, Marker) && (seg == s || OccursAt(s, Marker, |seg|))
  }

  /** `CollectorString(text)` in working directory `cwd`. */
  function MakeCollectorString(fs: FileSystem, cwd: string, text: string): (r: CollectorString)
    ensures r.text == text
    ensures Contains(text, Marker) <==> Find(text, Marker).Some?
    ensures !Contains(text, Marker) ==> r.path == Absolute(cwd, text) && r.unit == ""
    ensures Contains(text, Marker) ==>
      var i := Find(text, Marker).value;
      r.path == Absolute(cwd, text[..i]) && Segment(text[i + 2..], r.unit)
    ensures IsFile(fs, r.path) ==> r.directory == Parent(r.path)
    ensures !IsFile(fs, r.path) ==> r.directory == r.path
  {
    FindNoneIffNotContains(text, Marker);
    SplitCountsOccurrence(text, Marker);
    SecondPart(text, Marker);
    var parts := Split(text, Marker);
    var path := Absolute(cwd, parts[0]);
    var directory := if IsFile(fs, path) then Parent(path) else path;
    var unit := if Contains(text, Marker) then parts[1] else "";
    CollectorString(text, path, directory, unit)
  }

  /** A unit's own collector string `<file>::<name>` names its file and its
      function again, for an absolute file path with no `::` ending inside
      it and a name without `::`. */
  lemma UnitStringRoundTrip(fs: FileSystem, cwd: string, file: string, name: string)
    requires StartsWith(file, "/")
    requires forall j :: 0 <= j < |file| ==> !OccursAt(file + Marker, Marker, j)
    requires !Contains(name, Marker)
    ensures MakeCollectorString(fs, cwd, file + Marker + name).path == file
    ensures MakeCollectorString(fs, cwd, file + Marker + name).unit == name
  {
    var text := file + Marker + name;
    SplitAtFirst(file, Marker, name);
    SplitWithoutSep(name, Marker);
    SplitCountsOccurrence(text, Marker);
    assert Split(text, Marker) == [file, name];
    assert StartsWith(Split(text, Marker)[0], "/");
  }

  /** `TestUnit(filepath, name)`: unselected, unsuccessful, no log lines,
      identified by `<file>::<name>`. */
  function NewUnit(fs: FileSystem, cwd: string, file: string, name: string): (u: TestUnit)
    ensures !u.selected && !u.success && u.lines == []
    ensures u.filepath == file && u.name == name
    ensures u.cs.text == file + Marker + name
  {
    TestUnit(file, name, MakeCollectorString(fs, cwd, file + Marker + name), false, [], false)
  }

  /** A source line that declares a test. */
  predicate IsTestLine(line: string) {
    Contains(line, "def test_")
  }

  /** `r` is what a declaration's name is cut to from the text `rest` after
      `def `: a prefix free of `(` and of `def `, ending at the end of
      `rest`, at a `(` or at a further `def `. */
  predicate NameAfterDef(rest: string, r: string) {
    StartsWith(rest, r) && !Contains(r, "(") && !Contains(r, "def ")
    && (r == rest || OccursAt(rest, "(", |r|) || OccursAt(rest, "def ", |r|))
  }

  /** `line.split("def ")[1].split("(")[0]`: what follows the first `def `,
      cut at the next `(` or the next `def `, whichever comes first. */
  function TestName(line: string): (r: string)
    requires IsTestLine(line)
    ensures Find(line, "def ").Some?
    ensures NameAfterDef(line[Find(line, "def ").value + 4..], r)
  {
    DefSplits(line);
    var seg := Split(line, "def ")[1];
    assert Split(seg, "(")[0] == FirstPart(seg, "(");
    CutTwice(line[Find(line, "def ").value + 4..], seg);
    Split(seg, "(")[0]
  }

  lemma DefSplits(line: string)
    requires IsTestLine(line)
    ensures Find(line, "def ").Some?
    ensures |Split(line, "def ")| >= 2
    ensures Split(line, "def ")[1] == FirstPart(line[Find(line, "def ").value + 4..], "def ")
  {
    assert "def test_" == "def " + "test_";
    ContainsPrefix(line, "def ", "test_");
    FindNoneIffNotContains(line, "def ");
    SecondPart(line, "def ");
  }

  lemma CutTwice(rest: string, seg: string)
    requires seg == FirstPart(rest, "def ")
    ensures NameAfterDef(rest, FirstPart(seg, "("))
  {
    var r := FirstPart(seg, "(");
    if Contains(r, "def ") {
      ContainsInPrefix(seg, r, "def ");
    }
    if r != seg {
      assert rest[|r|..|r| + 1] == seg[|r|..|r| + 1];
    }
  }

  /** An occurrence inside a prefix is an occurrence in the whole string. */
  lemma ContainsInPrefix(s: string, p: string, sep: string)
    requires StartsWith(s, p)
    requires Contains(p, sep)
    ensures Contains(s, sep)
  {
    ContainsIffOccurs(p, sep);
    ContainsIffOccurs(s, sep);
    var j :| OccursAt(p, sep, j);
    assert p[j..j + |sep|] == s[j..j + |sep|];
    assert OccursAt(s, sep, j);
  }

  /** The function names found in a file's lines, in line order, duplicates kept. */
  function ParseNames(lines: seq<string>): (names: seq<string>)
    ensures |names| == CountWhere(lines, IsTestLine)
    decreases |lines|
  {
    if |lines| == 0 then []
    else (if IsTestLine(lines[0]) then [TestName(lines[0])] else []) + ParseNames(lines[1..])
  }

  /** Parsing is line by line: the names of a concatenation are the
      concatenated names, so file order is kept. */
  lemma {:induction false} ParseNamesAppend(a: seq<string>, b: seq<string>)
    ensures ParseNames(a + b) == ParseNames(a) + ParseNames(b)
    decreases |a|
  {
    if |a| == 0 {
      assert a + b == b;
    } else {
      assert (a + b)[0] == a[0];
      assert (a + b)[1..] == a[1..] + b;
      ParseNamesAppend(a[1..], b);
    }
  }

  /** One line contributes its name exactly when it declares a test. */
  lemma ParseNamesOne(line: string)
    ensures ParseNames([line]) == (if IsTestLine(line) then [TestName(line)] else [])
  {
    assert [line][1..] == [];
  }

  /** `TestFile._parse_test_units`: one fresh unit per name, in order. */
  function ParseTestUnits(fs: FileSystem, cwd: string, file: string, lines: seq<string>): (units: seq<TestUnit>)
    ensures |units| == CountWhere(lines, IsTestLine)
    ensures forall k :: 0 <= k < |units| ==>
      units[k] == NewUnit(fs, cwd, file, ParseNames(lines)[k]) && IsFresh(units[k])
  {
    var names := ParseNames(lines);
    seq(|names|, k requires 0 <= k < |names| => NewUnit(fs, cwd, file, names[k]))
  }

  /** As constructed: not selected, not run. */
  predicate IsFresh(u: TestUnit) {
    !u.selected && !u.success && u.lines == []
  }

  /** `TestFile(filepath)`: read the file and parse its units. */
  function MakeTestFile(fs: FileSystem, cwd: string, file: string): (tf: TestFile)
    requires IsFile(fs, file)
    ensures tf.filepath == file
    ensures |tf.units| == CountWhere(fs.files[file], IsTestLine)
  {
    TestFile(file, ParseTestUnits(fs, cwd, file, fs.files[file]))
  }

  // --------------------------------------------------------------- selection

  /** The filter of `select_by_collector_string`: the same file when the
      filter is a file, a path below it when it is a directory, the same
      unit name when it names one. */
  predicate Passes(fs: FileSystem, filter: CollectorString, u: TestUnit) {
    (IsFile(fs, filter.path) ==> filter.path == u.cs.path)
    && (IsDir(fs, filter.path) ==> IsRelativeTo(u.cs.path, filter.path))
    && (filter.unit != "" ==> filter.unit == u.cs.unit)
  }

  /** `select_by_collector_string`: every unit that passes becomes
      selected; nothing else about any unit changes. */
  function SelectByCollectorString(fs: FileSystem, filter: CollectorString, units: seq<TestUnit>): (r: seq<TestUnit>)
    ensures |r| == |units|
    ensures forall k :: 0 <= k < |r| ==>
      r[k].selected == (units[k].selected || Passes(fs, filter, units[k]))
      && r[k] == units[k].(selected := r[k].selected)
    decreases |units|
  {
    if |units| == 0 then []
    else
      var u := units[0];
      [if Passes(fs, filter, u) then u.(selected := true) else u]
        + SelectByCollectorString(fs, filter, units[1..])
  }

  /** `select_by_keyword`: every unit whose name lacks the keyword becomes
      unselected; nothing else changes. */
  function SelectByKeyword(units: seq<TestUnit>, keyword: string): (r: seq<TestUnit>)
    ensures |r| == |units|
    ensures forall k :: 0 <= k < |r| ==>
      r[k].selected == (units[k].selected && Contains(units[k].name, keyword))
      && r[k] == units[k].(selected := r[k].selected)
    decreases |units|
  {
    if |units| == 0 then []
    else
      var u := units[0];
      [if Contains(u.name, keyword) then u else u.(selected := false)]
        + SelectByKeyword(units[1..], keyword)
  }

  /** The path/unit selection never deselects, the keyword selection never
      selects. */
  lemma SelectionMonotone(fs: FileSystem, filter: CollectorString, units: seq<TestUnit>, keyword: string)
    ensures forall k :: 0 <= k < |units| && units[k].selected ==>
      SelectByCollectorString(fs, filter, units)[k].selected
    ensures forall k :: 0 <= k < |units| && SelectByKeyword(units, keyword)[k].selected ==>
      units[k].selected
  {
  }

  /** Applying either selection a second time changes nothing. */
  lemma SelectionIdempotent(fs: FileSystem, filter: CollectorString, units: seq<TestUnit>, keyword: string)
    ensures var once := SelectByCollectorString(fs, filter, units);
      SelectByCollectorString(fs, filter, once) == once
    ensures var once := SelectByKeyword(units, keyword);
      SelectByKeyword(once, keyword) == once
  {
    var once := SelectByCollectorString(fs, filter, units);
    var twice := SelectByCollectorString(fs, filter, once);
    assert forall k :: 0 <= k < |once| ==> Passes(fs, filter, once[k]) == Passes(fs, filter, units[k]);
    assert forall k :: 0 <= k < |once| ==> twice[k] == once[k];
  }

  /** The empty keyword keeps every unit as it is. */
  lemma EmptyKeywordKeepsAll(units: seq<TestUnit>)
    ensures SelectByKeyword(units, "") == units
  {
    forall k | 0 <= k < |units| ensures Contains(units[k].name, "") {
      EmptyIsContained(units[k].name);
    }
  }

  /** Starting from fresh units, the two passes select exactly the units
      that pass the filter and contain the keyword. */
  lemma SelectedIffBoth(fs: FileSystem, filter: CollectorString, units: seq<TestUnit>, keyword: string)
    requires forall k :: 0 <= k < |units| ==> !units[k].selected
    ensures var r := SelectByKeyword(SelectByCollectorString(fs, filter, units), keyword);
      forall k :: 0 <= k < |units| ==>
        (r[k].selected <==> Passes(fs, filter, units[k]) && Contains(units[k].name, keyword))
  {
  }

  /** Every unit passes its own collector string as a filter. */
  lemma UnitSelectsItself(fs: FileSystem, u: TestUnit)
    ensures Passes(fs, u.cs, u)
  {
  }

  /** A filter path that is neither a file nor a directory constrains only
      the unit name. */
  lemma NoPathNoConstraint(fs: FileSystem, filter: CollectorString, u: TestUnit)
    requires !IsFile(fs, filter.path) && !IsDir(fs, filter.path)
    ensures Passes(fs, filter, u) <==> (filter.unit == "" || filter.unit == u.cs.unit)
  {
  }
}
