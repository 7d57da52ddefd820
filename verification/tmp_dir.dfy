/** The temporary directories of `core/tmpdir.py`: removing a directory
    tree, keeping only the newest session folders under the bpytest
    temporary root, and the `tmp_path` fixture's per-test directory.  Paths
    are sequences of components below the system temporary directory; the
    file system's answers (the entries, their creation times) are
    parameters. */
module TmpDir {
  import opened Strings
  import opened Py
  import opened Fixtures

  /** `MAX_TEMP_FOLDERS`. */
  const MaxTempFolders: nat := 3

  type Path = seq<string>

  /** A directory entry: a file, or a folder with its entries. */
  datatype Node = File(name: string) | Folder(name: string, children: seq<Node>)

  /** What a removal does to the file system, in order. */
  datatype RemoveOp = Unlink(path: Path) | Rmdir(path: Path)

  /** `q` is a proper ancestor of `p`. */
  predicate StrictlyUnder(p: Path, q: Path) {
    |q| < |p| && p[..|q|] == q
  }

  /** `q` is `p` or one of its ancestors. */
  predicate Within(p: Path, q: Path) {
    |q| <= |p| && p[..|q|] == q
  }

  /** Entries of one folder have distinct names, at every level. */
  predicate WellFormed(node: Node)
    decreases node
  {
    match node
    case File(_) => true
    case Folder(_, cs) =>
      (forall i, j :: 0 <= i < j < |cs| ==> cs[i].name != cs[j].name)
      && forall k :: 0 <= k < |cs| ==> WellFormed(cs[k])
  }

  /** The number of entries in a tree, itself included. */
  function Size(node: Node): nat
    decreases node, 1
  {
    match node
    case File(_) => 1
    case Folder(_, cs) => 1 + SizeFrom(node, 0)
  }

  function SizeFrom(node: Node, i: nat): nat
    requires node.Folder? && i <= |node.children|
    decreases node, 0, |node.children| - i
  {
    if i == |node.children| then 0 else Size(node.children[i]) + SizeFrom(node, i + 1)
  }

  /** The paths of every entry of a tree rooted at `path`, itself included. */
  function TreePaths(path: Path, node: Node): set<Path>
    decreases node, 1
  {
    match node
    case File(_) => {path}
    case Folder(_, _) => {path} + PathsFrom(path, node, 0)
  }

  function PathsFrom(path: Path, node: Node, i: nat): set<Path>
    requires node.Folder? && i <= |node.children|
    decreases node, 0, |node.children| - i
  {
    if i == |node.children| then {}
    else TreePaths(path + [node.children[i].name], node.children[i]) + PathsFrom(path, node, i + 1)
  }

  /** The paths a list of removals touches. */
  function PathsOf(ops: seq<RemoveOp>): set<Path> {
    if |ops| == 0 then {} else {ops[0].path} + PathsOf(ops[1..])
  }

  /** No path is removed twice. */
  predicate DistinctPaths(ops: seq<RemoveOp>) {
    forall i, j :: 0 <= i < j < |ops| ==> ops[i].path != ops[j].path
  }

  lemma {:induction false} PathsOfAppend(a: seq<RemoveOp>, b: seq<RemoveOp>)
    ensures PathsOf(a + b) == PathsOf(a) + PathsOf(b)
    decreases |a|
  {
    if |a| > 0 {
      assert (a + b)[1..] == a[1..] + b;
      PathsOfAppend(a[1..], b);
    } else {
      assert a + b == b;
    }
  }

  lemma {:induction false} PathsOfMember(ops: seq<RemoveOp>, q: Path)
    ensures q in PathsOf(ops) <==> exists j :: 0 <= j < |ops| && ops[j].path == q
    decreases |ops|
  {
    if |ops| > 0 {
      PathsOfMember(ops[1..], q);
      if q in PathsOf(ops[1..]) {
        var j :| 0 <= j < |ops[1..]| && ops[1..][j].path == q;
        assert ops[j + 1].path == q;
      }
      if exists j :: 0 <= j < |ops| && ops[j].path == q {
        var j :| 0 <= j < |ops| && ops[j].path == q;
        if j > 0 { assert ops[1..][j - 1].path == q; }
      }
    }
  }

  /** `_recursive_remove(path)`: each entry in turn (a folder by recursion,
      a file by `unlink`), then the folder itself. */
  function RecursiveRemove(path: Path, node: Node): seq<RemoveOp>
    requires node.Folder?
    decreases node, 1
  {
    RemoveEntries(path, node, 0) + [Rmdir(path)]
  }

  /** One entry of a folder being removed. */
  function RemoveEntry(path: Path, child: Node): seq<RemoveOp>
    decreases child, 2
  {
    match child
    case File(n) => [Unlink(path + [n])]
    case Folder(n, _) => RecursiveRemove(path + [n], child)
  }

  function RemoveEntries(path: Path, node: Node, i: nat): seq<RemoveOp>
    requires node.Folder? && i <= |node.children|
    decreases node, 0, |node.children| - i
  {
    if i == |node.children| then []
    else RemoveEntry(path, node.children[i]) + RemoveEntries(path, node, i + 1)
  }

  /** No removal touches an ancestor of a path removed earlier: whenever a
      folder is removed, everything below it already is. */
  predicate ChildrenFirst(ops: seq<RemoveOp>) {
    forall i, j :: 0 <= i < |ops| && 0 <= j < |ops| && ops[i].Rmdir? && StrictlyUnder(ops[j].path, ops[i].path) ==> j < i
  }

  lemma ChildrenFirstAppend(a: seq<RemoveOp>, b: seq<RemoveOp>)
    requires ChildrenFirst(a) && ChildrenFirst(b)
    requires forall i, j :: 0 <= i < |a| && 0 <= j < |b| && a[i].Rmdir? ==> !StrictlyUnder(b[j].path, a[i].path)
    ensures ChildrenFirst(a + b)
  {
    var ab := a + b;
    assert forall k :: 0 <= k < |a| ==> ab[k] == a[k];
    assert forall k :: |a| <= k < |ab| ==> ab[k] == b[k - |a|];
  }

  lemma ChildrenFirstSnoc(a: seq<RemoveOp>, path: Path)
    requires ChildrenFirst(a)
    requires forall j :: 0 <= j < |a| ==> StrictlyUnder(a[j].path, path)
    ensures ChildrenFirst(a + [Rmdir(path)])
  {
    var ab := a + [Rmdir(path)];
    assert forall k :: 0 <= k < |a| ==> ab[k] == a[k];
  }

  /** Paths that differ at a component of `q` are not below `q`. */
  lemma DifferAt(p: Path, q: Path, k: nat)
    requires k < |p| && k < |q| && p[k] != q[k]
    ensures !StrictlyUnder(p, q)
  {
    if |q| < |p| {
      assert p[..|q|][k] == p[k];
    }
  }

  /** Removing a well-formed folder removes every entry of its tree, each
      exactly once and nothing else, removes the folder itself last, stays
      inside it, and removes every folder only after everything below it
      (so the last `rmdir` meets an emptied folder). */
  lemma {:induction false} RecursiveRemoveSound(path: Path, node: Node)
    requires node.Folder? && WellFormed(node)
    ensures var ops := RecursiveRemove(path, node);
      |ops| == Size(node)
      && ops[|ops| - 1] == Rmdir(path)
      && (forall j :: 0 <= j < |ops| ==> Within(ops[j].path, path))
      && ChildrenFirst(ops)
    ensures PathsOf(RecursiveRemove(path, node)) == TreePaths(path, node)
    ensures forall q :: q in TreePaths(path, node) <==>
      exists j :: 0 <= j < |RecursiveRemove(path, node)| && RecursiveRemove(path, node)[j].path == q
    ensures DistinctPaths(RecursiveRemove(path, node))
    decreases node, 1
  {
    var inner := RemoveEntries(path, node, 0);
    RemoveEntriesSound(path, node, 0);
    ChildrenFirstSnoc(inner, path);
    var ops := inner + [Rmdir(path)];
    forall j | 0 <= j < |ops| ensures Within(ops[j].path, path) {
      if j < |inner| { assert ops[j] == inner[j]; }
    }
    PathsOfAppend(inner, [Rmdir(path)]);
    assert PathsOf([Rmdir(path)]) == {path};
    forall i, j | 0 <= i < j < |ops| ensures ops[i].path != ops[j].path {
      assert ops[i] == inner[i];
      if j < |inner| { assert ops[j] == inner[j]; }
    }
    forall q ensures q in TreePaths(path, node) <==> exists j :: 0 <= j < |ops| && ops[j].path == q {
      PathsOfMember(ops, q);
    }
  }

  /** Removing one entry stays below it. */
  lemma {:induction false} RemoveEntrySound(path: Path, child: Node)
    requires WellFormed(child)
    ensures var ops := RemoveEntry(path, child);
      |ops| == Size(child)
      && (forall j :: 0 <= j < |ops| ==> StrictlyUnder(ops[j].path, path) && ops[j].path[|path|] == child.name)
      && ChildrenFirst(ops)
    ensures PathsOf(RemoveEntry(path, child)) == TreePaths(path + [child.name], child)
    ensures DistinctPaths(RemoveEntry(path, child))
    decreases child, 2
  {
    var sub := path + [child.name];
    var ops := RemoveEntry(path, child);
    if child.Folder? {
      RecursiveRemoveSound(sub, child);
    } else {
      assert PathsOf(ops) == {sub};
    }
    forall j | 0 <= j < |ops| ensures StrictlyUnder(ops[j].path, path) && ops[j].path[|path|] == child.name {
      assert Within(ops[j].path, sub);
      assert ops[j].path[..|sub|][..|path|] == ops[j].path[..|path|];
      assert ops[j].path[..|sub|][|path|] == sub[|path|];
    }
  }

  /** The entries from `i` on are removed below `path`, never under the
      name of an earlier entry, each folder after its contents. */
  lemma {:induction false} RemoveEntriesSound(path: Path, node: Node, i: nat)
    requires node.Folder? && WellFormed(node) && i <= |node.children|
    ensures var ops := RemoveEntries(path, node, i);
      |ops| == SizeFrom(node, i)
      && (forall j :: 0 <= j < |ops| ==> StrictlyUnder(ops[j].path, path))
      && (forall j, k :: 0 <= j < |ops| && 0 <= k < i ==> ops[j].path[|path|] != node.children[k].name)
      && ChildrenFirst(ops)
    ensures PathsOf(RemoveEntries(path, node, i)) == PathsFrom(path, node, i)
    ensures DistinctPaths(RemoveEntries(path, node, i))
    decreases node, 0, |node.children| - i
  {
    if i < |node.children| {
      var child := node.children[i];
      var here := RemoveEntry(path, child);
      var rest := RemoveEntries(path, node, i + 1);
      RemoveEntrySound(path, child);
      RemoveEntriesSound(path, node, i + 1);
      forall a, b | 0 <= a < |here| && 0 <= b < |rest| && here[a].Rmdir? ensures !StrictlyUnder(rest[b].path, here[a].path) {
        DifferAt(rest[b].path, here[a].path, |path|);
      }
      ChildrenFirstAppend(here, rest);
      var ops := here + rest;
      assert forall j :: 0 <= j < |here| ==> ops[j] == here[j];
      assert forall j :: |here| <= j < |ops| ==> ops[j] == rest[j - |here|];
      PathsOfAppend(here, rest);
      forall a, b | 0 <= a < |ops| && a < b < |ops| ensures ops[a].path != ops[b].path {
        if b < |here| {
          assert ops[a] == here[a] && ops[b] == here[b];
        } else if a >= |here| {
          assert ops[a] == rest[a - |here|] && ops[b] == rest[b - |here|];
        } else {
          assert ops[a].path[|path|] == child.name;
          assert ops[b].path[|path|] != node.children[i].name;
        }
      }
    }
  }

  // ------------------------------------------------------------- retention

  /** An entry of the bpytest temporary root with its `st_ctime`. */
  datatype TempEntry = TempEntry(node: Node, ctime: int)

  predicate SortedByCtime(es: seq<TempEntry>) {
    forall i, j :: 0 <= i < j < |es| ==> es[i].ctime <= es[j].ctime
  }

  /** The entries of one folder have distinct names. */
  predicate DistinctNames(es: seq<TempEntry>) {
    forall i, j :: 0 <= i < j < |es| ==> es[i].node.name != es[j].node.name
  }

  /** Insert `e` before the first entry that is not older than it. */
  function Insert(e: TempEntry, es: seq<TempEntry>): (r: seq<TempEntry>)
    requires SortedByCtime(es)
    ensures SortedByCtime(r)
    ensures multiset(r) == multiset(es) + multiset{e}
    ensures forall k :: 0 <= k < |r| ==> r[k] == e || r[k] in es
  {
    if |es| == 0 || e.ctime <= es[0].ctime then [e] + es
    else
      var tail := es[1..];
      var rest := Insert(e, tail);
      assert es == [es[0]] + tail;
      assert forall k :: 0 <= k < |rest| ==> es[0].ctime <= rest[k].ctime;
      ConsSorted(es[0], rest);
      [es[0]] + rest
  }

  lemma ConsSorted(x: TempEntry, s: seq<TempEntry>)
    requires SortedByCtime(s) && forall k :: 0 <= k < |s| ==> x.ctime <= s[k].ctime
    ensures SortedByCtime([x] + s)
  {
    var xs := [x] + s;
    assert forall k :: 1 <= k < |xs| ==> xs[k] == s[k - 1];
  }

  /** `sorted(..., key=st_ctime)`: ordered by creation time, a permutation
      of the listing; entries with equal times keep their listing order. */
  function SortByCtime(es: seq<TempEntry>): (r: seq<TempEntry>)
    ensures SortedByCtime(r)
    ensures multiset(r) == multiset(es)
    ensures |r| == |es|
    ensures forall k :: 0 <= k < |r| ==> r[k] in es
  {
    if |es| == 0 then []
    else
      assert es == [es[0]] + es[1..];
      Insert(es[0], SortByCtime(es[1..]))
  }

  /** How many of `n` entries the cleanup removes. */
  function Cut(n: nat): nat {
    if n > MaxTempFolders then n - MaxTempFolders else 0
  }

  /** `temp_folders[:-MAX_TEMP_FOLDERS]`: all but the newest three. */
  function Oldest(es: seq<TempEntry>): seq<TempEntry> {
    SortByCtime(es)[..Cut(|es|)]
  }

  /** The entries the cleanup keeps. */
  function Newest(es: seq<TempEntry>): seq<TempEntry> {
    SortByCtime(es)[Cut(|es|)..]
  }

  /** The cleanup splits the listing into the removed and the kept entries:
      together a permutation of it, at most three kept (all of them when
      there are at most three), and nothing removed newer than anything
      kept. */
  lemma RetentionSplit(es: seq<TempEntry>)
    ensures multiset(Oldest(es) + Newest(es)) == multiset(es)
    ensures |Newest(es)| == if |es| > MaxTempFolders then MaxTempFolders else |es|
    ensures |es| <= MaxTempFolders ==> Oldest(es) == [] && multiset(Newest(es)) == multiset(es)
    ensures forall a, b :: 0 <= a < |Oldest(es)| && 0 <= b < |Newest(es)| ==> Oldest(es)[a].ctime <= Newest(es)[b].ctime
  {
    var sorted := SortByCtime(es);
    var n := Cut(|es|);
    assert sorted[..n] + sorted[n..] == sorted;
    SortedSplit(sorted, n);
  }

  lemma SortedSplit(s: seq<TempEntry>, n: nat)
    requires SortedByCtime(s) && n <= |s|
    ensures forall a, b :: 0 <= a < n && 0 <= b < |s| - n ==> s[..n][a].ctime <= s[n..][b].ctime
  {
    forall a, b | 0 <= a < n && 0 <= b < |s| - n ensures s[..n][a].ctime <= s[n..][b].ctime {
      assert s[..n][a] == s[a] && s[n..][b] == s[n + b];
    }
  }

  /** Sorting keeps names distinct. */
  lemma {:induction false} SortKeepsDistinct(es: seq<TempEntry>)
    requires DistinctNames(es)
    ensures DistinctNames(SortByCtime(es))
    decreases |es|
  {
    if |es| > 0 {
      var tail := es[1..];
      assert DistinctNames(tail) by {
        assert forall k :: 0 <= k < |tail| ==> tail[k] == es[k + 1];
      }
      SortKeepsDistinct(tail);
      var sorted := SortByCtime(tail);
      forall k | 0 <= k < |sorted| ensures sorted[k].node.name != es[0].node.name {
        var m :| 0 <= m < |tail| && tail[m] == sorted[k];
        assert tail[m] == es[m + 1];
      }
      InsertKeepsDistinct(es[0], sorted);
    }
  }

  lemma {:induction false} InsertKeepsDistinct(e: TempEntry, es: seq<TempEntry>)
    requires SortedByCtime(es) && DistinctNames(es)
    requires forall k :: 0 <= k < |es| ==> es[k].node.name != e.node.name
    ensures DistinctNames(Insert(e, es))
    decreases |es|
  {
    if |es| > 0 && e.ctime > es[0].ctime {
      var tail := es[1..];
      assert forall k :: 0 <= k < |tail| ==> tail[k] == es[k + 1];
      InsertKeepsDistinct(e, tail);
      var rest := Insert(e, tail);
      var r := [es[0]] + rest;
      forall k | 0 <= k < |rest| ensures rest[k].node.name != es[0].node.name {
        if rest[k] != e {
          var m :| 0 <= m < |tail| && tail[m] == rest[k];
        }
      }
      assert forall k :: 1 <= k < |r| ==> r[k] == rest[k - 1];
    } else {
      var r := [e] + es;
      assert forall k :: 1 <= k < |r| ==> r[k] == es[k - 1];
    }
  }

  /** The folder created last outlives the cleanup: an entry strictly newer
      than every other one is kept. */
  lemma {:induction false} LatestIsKept(es: seq<TempEntry>, latest: nat)
    requires DistinctNames(es) && latest < |es|
    requires forall k :: 0 <= k < |es| && k != latest ==> es[k].ctime < es[latest].ctime
    ensures es[latest] in Newest(es)
  {
    var e := es[latest];
    var sorted := SortByCtime(es);
    SortKeepsDistinct(es);
    assert e in multiset(sorted);
    var i :| 0 <= i < |sorted| && sorted[i] == e;
    var n := Cut(|es|);
    if i < n {
      assert false;
    }
    assert sorted[i] == Newest(es)[i - n];
  }

  // --------------------------------------------------------------- cleanup

  /** What a cleanup did: the removals, in order, and the path on which
      `_recursive_remove` raised `NotADirectoryError`, if any. */
  datatype Cleanup = Cleanup(ops: seq<RemoveOp>, failedAt: Option<Path>)

  function EntryNames(es: seq<TempEntry>): (r: seq<string>)
    ensures |r| == |es| && forall k :: 0 <= k < |es| ==> r[k] == es[k].node.name
  {
    if |es| == 0 then [] else [es[0].node.name] + EntryNames(es[1..])
  }

  /** `_recursive_remove` on each entry of `doomed` in turn, below the
      temporary root `root`.  A plain file among them makes `iterdir`
      raise: the removals done so far stay done and the rest are skipped. */
  function RemoveAll(root: Path, doomed: seq<TempEntry>): (c: Cleanup)
    ensures c.failedAt.None? <==> forall k :: 0 <= k < |doomed| ==> doomed[k].node.Folder?
    ensures c.failedAt.Some? ==>
      (exists k :: 0 <= k < |doomed| && doomed[k].node.File?
                   && c.failedAt.value == root + [doomed[k].node.name]
                   && forall j :: 0 <= j < k ==> doomed[j].node.Folder?)
    ensures c.failedAt.None? ==> forall k :: 0 <= k < |doomed| ==> Rmdir(root + [doomed[k].node.name]) in c.ops
  {
    if |doomed| == 0 then Cleanup([], None)
    else
      var e := doomed[0];
      match e.node
      case File(n) => Cleanup([], Some(root + [n]))
      case Folder(n, _) =>
        var here := RecursiveRemove(root + [n], e.node);
        var rest := RemoveAll(root, doomed[1..]);
        Cleanup(here + rest.ops, rest.failedAt)
  }

  /** Every removal of a cleanup lies strictly below the temporary root,
      inside one of the removed entries. */
  lemma {:induction false} RemoveAllStaysInside(root: Path, doomed: seq<TempEntry>)
    requires forall k :: 0 <= k < |doomed| ==> WellFormed(doomed[k].node)
    ensures forall j :: 0 <= j < |RemoveAll(root, doomed).ops| ==>
      StrictlyUnder(RemoveAll(root, doomed).ops[j].path, root)
      && RemoveAll(root, doomed).ops[j].path[|root|] in EntryNames(doomed)
  {
    if |doomed| > 0 && doomed[0].node.Folder? {
      var e := doomed[0];
      RemoveEntrySound(root, e.node);
      assert RemoveEntry(root, e.node) == RecursiveRemove(root + [e.node.name], e.node);
      var here := RecursiveRemove(root + [e.node.name], e.node);
      var tail := doomed[1..];
      RemoveAllStaysInside(root, tail);
      var rest := RemoveAll(root, tail);
      var ops := here + rest.ops;
      assert EntryNames(doomed) == [e.node.name] + EntryNames(tail);
      var names := EntryNames(doomed);
      forall j | 0 <= j < |ops| ensures StrictlyUnder(ops[j].path, root) && ops[j].path[|root|] in names {
        if j < |here| {
          assert ops[j] == here[j];
          assert ops[j].path[|root|] == names[0];
        } else {
          var m := j - |here|;
          assert ops[j] == rest.ops[m];
          assert StrictlyUnder(rest.ops[m].path, root) && rest.ops[m].path[|root|] in EntryNames(tail);
        }
      }
    }
  }

  /** `_delete_old_temp_folders`, given the listing of the temporary root:
      every entry but the three newest is removed recursively. */
  function DeleteOldTempFolders(root: Path, es: seq<TempEntry>): (c: Cleanup)
    ensures |es| <= MaxTempFolders ==> c == Cleanup([], None)
    ensures c.failedAt.None? <==> forall k :: 0 <= k < |Oldest(es)| ==> Oldest(es)[k].node.Folder?
  {
    RetentionSplit(es);
    RemoveAll(root, Oldest(es))
  }

  /** Names of removed and kept entries differ. */
  lemma OldestNotNewest(es: seq<TempEntry>, a: nat, b: nat)
    requires DistinctNames(es) && a < |Oldest(es)| && b < |Newest(es)|
    ensures Oldest(es)[a].node.name != Newest(es)[b].node.name
  {
    var sorted := SortByCtime(es);
    SortKeepsDistinct(es);
    var n := Cut(|es|);
    assert Oldest(es)[a] == sorted[a] && Newest(es)[b] == sorted[n + b];
  }

  /** The cleanup leaves the three newest entries alone: no removal touches
      anything inside a kept entry. */
  lemma {:induction false} KeptUntouched(root: Path, es: seq<TempEntry>)
    requires DistinctNames(es)
    requires forall k :: 0 <= k < |es| ==> WellFormed(es[k].node)
    ensures var c := DeleteOldTempFolders(root, es);
      forall j, b :: 0 <= j < |c.ops| && 0 <= b < |Newest(es)| ==> !Within(c.ops[j].path, root + [Newest(es)[b].node.name])
  {
    var doomed := Oldest(es);
    var kept := Newest(es);
    var sorted := SortByCtime(es);
    forall k | 0 <= k < |doomed| ensures WellFormed(doomed[k].node) {
      assert doomed[k] == sorted[k];
      var m :| 0 <= m < |es| && es[m] == sorted[k];
    }
    RemoveAllStaysInside(root, doomed);
    var ops := RemoveAll(root, doomed).ops;
    var names := EntryNames(doomed);
    forall j, b | 0 <= j < |ops| && 0 <= b < |kept| ensures !Within(ops[j].path, root + [kept[b].node.name]) {
      var a :| 0 <= a < |names| && names[a] == ops[j].path[|root|];
      OldestNotNewest(es, a, b);
      DifferAt(ops[j].path, root + [kept[b].node.name], |root|);
    }
  }

  // -------------------------------------------------------------- tmp_path

  /** The `tmp_path` fixture for the requesting function `requester` in the
      session `sessionId`: the cleanup, then the directory
      `<root>/<session id>/<requester name>` (created with its parents),
      or no directory when the cleanup raised. */
  function TmpPath(root: Path, es: seq<TempEntry>, sessionId: nat, requester: Caller): (r: (Cleanup, Option<Path>))
    ensures r.0 == DeleteOldTempFolders(root, es)
    ensures r.1.Some? <==> r.0.failedAt.None?
    ensures r.1.Some? ==> StrictlyUnder(r.1.value, root) && |r.1.value| == |root| + 2
  {
    var c := DeleteOldTempFolders(root, es);
    if c.failedAt.Some? then (c, None)
    else (c, Some(root + [NatToString(sessionId), requester.name]))
  }

  /** Two requests get the same directory only from the same session and
      requesters of the same name. */
  lemma TmpPathsDistinct(root: Path, es: seq<TempEntry>, id1: nat, id2: nat, r1: Caller, r2: Caller)
    requires TmpPath(root, es, id1, r1).1.Some?
    ensures TmpPath(root, es, id1, r1).1 == TmpPath(root, es, id2, r2).1 <==> id1 == id2 && r1.name == r2.name
  {
    var p1 := root + [NatToString(id1), r1.name];
    var p2 := root + [NatToString(id2), r2.name];
    if p1 == p2 {
      assert p1[|root|] == p2[|root|] && p1[|root| + 1] == p2[|root| + 1];
      NatToStringInjective(id1, id2);
    }
  }

  /** `tmp_path` as the fixture engine registers it: a function-scoped
      provider taking only `request`. */
  function TmpPathFixture(file: string): Fixture {
    Fixture("tmp_path", Func("tmp_path", file, ["request"], 0, Returns), FunctionScope)
  }

  /** Resolving `tmp_path` for a test hands the provider the test itself
      as the requester, so the directory is named after the test; a fixture
      that depends on `tmp_path` gets a directory named after that
      fixture's function instead. */
  lemma {:induction false} TmpPathFromEngine(file: string, requester: Func, st: State)
    ensures var reg := [TmpPathFixture(file)];
      var o := GetFixture(reg, map["tmp_path" := 0], "tmp_path", CallerOf(requester), st);
      o.result.Ok? && o.result.value.1 == Made("tmp_path", [], Some(CallerOf(requester)))
      && o.result.value.1.request.value.name == requester.name
  {
    var reg := [TmpPathFixture(file)];
    var rank := map["tmp_path" := 0];
    var fx := TmpPathFixture(file);
    assert Registered(reg, "tmp_path") by { assert reg[0].name == "tmp_path"; }
    assert Lookup(reg, "tmp_path") == Some(fx);
    assert Binds(fx.func.params, 0, 0, true);
    var deps := Inspect(reg, rank, fx.func, 0, 0, st);
    assert Inspect(reg, rank, fx.func, 0, 1, st) == Outcome(Ok(([], [])), st);
    assert deps == Outcome(Ok(([], [])), st);
  }
}
