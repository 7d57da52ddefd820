/** Name-based test selection of the add-on generation
    (`addon/test_manager/test_file.py` and the `TestFile` of
    `addon/operator/run_tests.py`): a file keeps the list of test function
    names it declares and the sub-list a selection picks out of it. */
module NameSelection {
  import opened Seqs
  import opened Paths
  import opened Entity

  /** A file of the add-on generation: the names found and the names selected. */
  datatype NamedFile = NamedFile(filepath: string, found: seq<string>, selected: seq<string>)

  /** The selection picks every name: it is empty, or, where `blankMeansAll`
      (test_file.py), exactly `[""]`. */
  predicate SelectsAll(selection: seq<string>, blankMeansAll: bool) {
    |selection| == 0 || (blankMeansAll && selection == [""])
  }

  /** Membership in the selection, as a filter. */
  function Listed(selection: seq<string>): string -> bool {
    name => name in selection
  }

  /** `load_selected_functions`: walk the found names in order and keep
      those the selection picks. */
  function SelectNames(found: seq<string>, selection: seq<string>, blankMeansAll: bool): (r: seq<string>)
    ensures SelectsAll(selection, blankMeansAll) ==> r == found
    ensures !SelectsAll(selection, blankMeansAll) ==> r == Filter(found, Listed(selection))
    decreases |found|
  {
    if |found| == 0 then []
    else
      var rest := SelectNames(found[1..], selection, blankMeansAll);
      if SelectsAll(selection, blankMeansAll) || found[0] in selection then [found[0]] + rest else rest
  }

  /** The selected names are an order-preserving sub-list of the found
      names, and a name is selected exactly when it was found and (unless
      everything is selected) listed. */
  lemma SelectedSublist(found: seq<string>, selection: seq<string>, blankMeansAll: bool, name: string)
    ensures IsSubsequence(SelectNames(found, selection, blankMeansAll), found)
    ensures |SelectNames(found, selection, blankMeansAll)| <= |found|
    ensures name in SelectNames(found, selection, blankMeansAll) <==>
      name in found && (SelectsAll(selection, blankMeansAll) || name in selection)
  {
    if SelectsAll(selection, blankMeansAll) {
      SubsequenceRefl(found);
    } else {
      FilterMembers(found, Listed(selection), name);
    }
  }

  lemma {:induction false} SubsequenceRefl(s: seq<string>)
    ensures IsSubsequence(s, s)
    decreases |s|
  {
    if |s| > 0 {
      SubsequenceRefl(s[1..]);
    }
  }

  /** The two generations differ only on the selection `[""]`: the newer one
      selects everything, the older one selects only functions named `""`,
      of which a parsed file has none once its names are non-empty. */
  lemma BlankSelectionDiffers(found: seq<string>)
    requires forall k :: 0 <= k < |found| ==> found[k] != ""
    ensures SelectNames(found, [""], true) == found
    ensures SelectNames(found, [""], false) == []
    decreases |found|
  {
    if |found| > 0 {
      BlankSelectionDiffers(found[1..]);
    }
  }

  /** `TestFile(filepath, selected_functions)`: parse the names, then select. */
  function MakeNamedFile(fs: FileSystem, file: string, selection: seq<string>, blankMeansAll: bool): (f: NamedFile)
    requires IsFile(fs, file)
    ensures f.filepath == file && f.found == ParseNames(fs.files[file])
    ensures f.selected == SelectNames(f.found, selection, blankMeansAll)
  {
    var found := ParseNames(fs.files[file]);
    NamedFile(file, found, SelectNames(found, selection, blankMeansAll))
  }

  /** The tallies of `bpytest/test_manager/collector.py`. */
  function CollectedCount(files: seq<NamedFile>): nat
    decreases |files|
  {
    if |files| == 0 then 0 else |files[0].found| + CollectedCount(files[1..])
  }

  function SelectedCount(files: seq<NamedFile>): nat
    decreases |files|
  {
    if |files| == 0 then 0 else |files[0].selected| + SelectedCount(files[1..])
  }

  function DeselectedCount(files: seq<NamedFile>): int
    decreases |files|
  {
    if |files| == 0 then 0 else (|files[0].found| - |files[0].selected|) + DeselectedCount(files[1..])
  }

  /** Each file's selection is taken from its found names. */
  predicate WellSelected(files: seq<NamedFile>) {
    forall i :: 0 <= i < |files| ==> |files[i].selected| <= |files[i].found|
  }

  /** collected = selected + deselected, and nothing is deselected twice. */
  lemma {:induction false} TalliesAddUp(files: seq<NamedFile>)
    requires WellSelected(files)
    ensures CollectedCount(files) == SelectedCount(files) + DeselectedCount(files)
    ensures 0 <= DeselectedCount(files) <= CollectedCount(files)
    decreases |files|
  {
    if |files| > 0 {
      TalliesAddUp(files[1..]);
    }
  }

  /** Files built by `MakeNamedFile` are well selected. */
  lemma MadeFilesWellSelected(fs: FileSystem, paths: seq<string>, selection: seq<string>, blankMeansAll: bool)
    requires forall i :: 0 <= i < |paths| ==> IsFile(fs, paths[i])
    ensures WellSelected(seq(|paths|, i requires 0 <= i < |paths| => MakeNamedFile(fs, paths[i], selection, blankMeansAll)))
  {
    var files := seq(|paths|, i requires 0 <= i < |paths| => MakeNamedFile(fs, paths[i], selection, blankMeansAll));
    forall i | 0 <= i < |files| ensures |files[i].selected| <= |files[i].found| {
      SelectedSublist(files[i].found, selection, blankMeansAll, "");
    }
  }
}
