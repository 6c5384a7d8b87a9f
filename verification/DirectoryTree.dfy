/** The hierarchical view of a workspace: a tree of directories grown from the sorted file list. */
module DirectoryTree {
  import Ordering

  type Path = string

  datatype FileInfo = FileInfo(hash: string, size: nat, staged: bool)

  type Snapshot = map<Path, FileInfo>

  datatype Listed = Listed(path: Path, info: FileInfo)

  datatype Node =
    | Dir(name: string, children: seq<Node>)
    | File(name: string, file: Listed)

  /** The flat listing: one row per path, in listing order. */
  function Listing(files: Snapshot): (rows: seq<Listed>)
    ensures |rows| == |files|
    ensures forall i :: 0 <= i < |rows| ==> rows[i].path in files && rows[i].info == files[rows[i].path]
    ensures forall i :: 0 <= i < |rows| ==> rows[i].path == Ordering.Sorted(files.Keys)[i]
  {
    var paths := Ordering.Sorted(files.Keys);
    seq(|paths|, i requires 0 <= i < |paths| => assert paths[i] in paths; Listed(paths[i], files[paths[i]]))
  }

  // ----- paths and their parts -----

  /** The parts of a path between its slashes. */
  function Split(p: Path): (parts: seq<string>)
    ensures parts != []
  {
    if p == [] then [[]]
    else if p[0] == '/' then [[]] + Split(p[1..])
    else var rest := Split(p[1..]); [[p[0]] + rest[0]] + rest[1..]
  }

  /** The parts joined by slashes. */
  function Join(parts: seq<string>): Path
    requires parts != []
  {
    if |parts| == 1 then parts[0] else parts[0] + "/" + Join(parts[1..])
  }

  lemma {:induction false} JoinSplit(p: Path)
    ensures Join(Split(p)) == p
  {
    if p != [] {
      JoinSplit(p[1..]);
      var rest := Split(p[1..]);
      if p[0] == '/' {
        assert Split(p)[1..] == rest;
      } else {
        assert Split(p)[1..] == rest[1..];
        if |rest| > 1 {
          assert Join(Split(p)) == [p[0]] + (rest[0] + "/" + Join(rest[1..]));
        }
      }
    }
  }

  /** Splitting `x/rest` for a slash-free `x` takes off `x`. */
  lemma {:induction false} SplitAtSlash(x: string, rest: Path)
    requires '/' !in x
    ensures Split(x + "/" + rest) == [x] + Split(rest)
  {
    var p := x + "/" + rest;
    if x == [] {
      assert p[1..] == rest;
    } else {
      SplitAtSlash(x[1..], rest);
      assert p[1..] == x[1..] + "/" + rest;
      assert [x[0]] + x[1..] == x;
      assert p[0] == x[0] && x[0] in x;
    }
  }

  lemma {:induction false} PartsHaveNoSlash(p: Path)
    ensures forall i :: 0 <= i < |Split(p)| ==> '/' !in Split(p)[i]
  {
    if p != [] {
      PartsHaveNoSlash(p[1..]);
      var rest := Split(p[1..]);
      forall i | 0 <= i < |Split(p)| ensures '/' !in Split(p)[i] {
        if p[0] != '/' && i == 0 {
          assert Split(p)[0] == [p[0]] + rest[0];
        } else if p[0] == '/' && i > 0 {
          assert Split(p)[i] == rest[i - 1];
        }
      }
    }
  }

  /** A path lies under a directory given by its parts: the directory's parts begin the path's
      parts, and the file name is still to come. */
  predicate Under(dir: seq<string>, parts: seq<string>) {
    |dir| < |parts| && parts[..|dir|] == dir
  }

  /** The text every path under a directory begins with. */
  function DirText(dir: seq<string>): string {
    if dir == [] then [] else dir[0] + "/" + DirText(dir[1..])
  }

  /** Lying under a directory is the same as beginning with the directory's text. */
  lemma {:induction false} UnderIsTextPrefix(dir: seq<string>, p: Path)
    requires forall i :: 0 <= i < |dir| ==> '/' !in dir[i]
    ensures Under(dir, Split(p)) <==> DirText(dir) <= p
  {
    if dir != [] {
      var x := dir[0];
      assert DirText(dir) == x + "/" + DirText(dir[1..]);
      if x + "/" <= p {
        var rest := p[|x| + 1..];
        assert p == x + "/" + rest;
        SplitAtSlash(x, rest);
        UnderIsTextPrefix(dir[1..], rest);
        assert Split(p)[1..] == Split(rest);
        assert Under(dir, Split(p)) <==> Under(dir[1..], Split(rest)) by {
          if Under(dir[1..], Split(rest)) {
            assert Split(p)[..|dir|] == [x] + Split(rest)[..|dir| - 1];
          }
          if Under(dir, Split(p)) {
            assert Split(rest)[..|dir| - 1] == Split(p)[..|dir|][1..];
          }
        }
        assert DirText(dir) <= p <==> DirText(dir[1..]) <= rest;
      } else {
        assert x + "/" <= DirText(dir);
        if Under(dir, Split(p)) {
          assert Split(p)[0] == Split(p)[..|dir|][0] == x;
          JoinSplit(p);
          assert false;
        }
      }
    }
  }

  /** All the files of one directory are contiguous in the sorted list. */
  lemma DirectoriesAreContiguous(dir: seq<string>, a: Path, b: Path, c: Path)
    requires Ordering.AtMost(a, b) && Ordering.AtMost(b, c)
    requires Under(dir, Split(a)) && Under(dir, Split(c))
    ensures Under(dir, Split(b))
  {
    PartsHaveNoSlash(a);
    assert forall i :: 0 <= i < |dir| ==> dir[i] == Split(a)[..|dir|][i] == Split(a)[i];
    UnderIsTextPrefix(dir, a);
    UnderIsTextPrefix(dir, b);
    UnderIsTextPrefix(dir, c);
    Ordering.PrefixIsConvex(DirText(dir), a, b, c);
  }

  // ----- growing the tree -----

  /** The place of the directory called `name` among some children, or their number if none is. */
  function DirIndex(children: seq<Node>, name: string): (i: nat)
    ensures i <= |children|
    ensures i < |children| ==> children[i].Dir? && children[i].name == name
    ensures forall j :: 0 <= j < i ==> !(children[j].Dir? && children[j].name == name)
  {
    if children == [] then 0
    else if children[0].Dir? && children[0].name == name then 0
    else 1 + DirIndex(children[1..], name)
  }

  /** One file hung below some children: existing directories are reused, missing ones are added
      at the end. */
  function Hang(children: seq<Node>, parts: seq<string>, file: Listed): seq<Node>
    requires parts != []
    decreases |parts|
  {
    if |parts| == 1 then children + [File(parts[0], file)]
    else
      var i := DirIndex(children, parts[0]);
      if i < |children| then
        children[i := Dir(parts[0], Hang(children[i].children, parts[1..], file))]
      else
        children + [Dir(parts[0], Hang([], parts[1..], file))]
  }

  /** The children of the root after hanging every row of a listing in turn. */
  function Grow(rows: seq<Listed>): seq<Node> {
    if rows == [] then []
    else Hang(Grow(rows[..|rows| - 1]), Split(rows[|rows| - 1].path), rows[|rows| - 1])
  }

  function TreeOf(files: Snapshot): Node {
    Dir("/", Grow(Listing(files)))
  }

  // ----- depth-first listing -----

  function Leaves(n: Node): seq<Listed> {
    match n
    case File(_, f) => [f]
    case Dir(_, children) => LeavesOf(children)
  }

  function LeavesOf(children: seq<Node>): seq<Listed> {
    if children == [] then [] else Leaves(children[0]) + LeavesOf(children[1..])
  }

  lemma {:induction false} LeavesOfAppend(a: seq<Node>, n: Node)
    ensures LeavesOf(a + [n]) == LeavesOf(a) + Leaves(n)
  {
    if a == [] {
      assert a + [n] == [n] && [n][1..] == [];
      assert LeavesOf([n]) == Leaves(n) + LeavesOf([]);
    } else {
      assert (a + [n])[1..] == a[1..] + [n];
      LeavesOfAppend(a[1..], n);
    }
  }

  /** No two directories of one parent share a name, all the way down. */
  ghost predicate NamesUnique(children: seq<Node>) {
    && (forall i, j :: 0 <= i < j < |children| && children[i].Dir? && children[j].Dir? ==>
          children[i].name != children[j].name)
    && (forall i :: 0 <= i < |children| && children[i].Dir? ==> NamesUnique(children[i].children))
  }

  /** The last file hung had these parts: it sits at the end of the rightmost branch. */
  ghost predicate EndsAt(children: seq<Node>, parts: seq<string>)
    requires parts != []
    decreases |parts|
  {
    && children != []
    && var last := children[|children| - 1];
       if |parts| == 1 then last.File? && last.name == parts[0]
       else last.Dir? && last.name == parts[0] && EndsAt(last.children, parts[1..])
  }

  /** If the tree already has a directory on the way to `parts`, the rightmost branch goes through
      it: what contiguity gives. */
  ghost predicate Reachable(children: seq<Node>, parts: seq<string>)
    requires parts != []
    decreases |parts|
  {
    |parts| > 1 && DirIndex(children, parts[0]) < |children| ==>
      && DirIndex(children, parts[0]) == |children| - 1
      && Reachable(children[|children| - 1].children, parts[1..])
  }

  /** Hanging a file whose existing directories are on the rightmost branch adds it at the end of
      the depth-first listing. */
  lemma {:induction false} HangAppends(children: seq<Node>, parts: seq<string>, file: Listed)
    requires parts != [] && Reachable(children, parts) && NamesUnique(children)
    ensures var grown := Hang(children, parts, file);
      && LeavesOf(grown) == LeavesOf(children) + [file]
      && NamesUnique(grown)
      && EndsAt(grown, parts)
    decreases |parts|
  {
    var grown := Hang(children, parts, file);
    if |parts| == 1 {
      LeavesOfAppend(children, File(parts[0], file));
    } else {
      var i := DirIndex(children, parts[0]);
      if i < |children| {
        var last := children[i];
        HangAppends(last.children, parts[1..], file);
        var below := Hang(last.children, parts[1..], file);
        assert children == children[..i] + [last];
        assert grown == children[..i] + [Dir(parts[0], below)];
        LeavesOfAppend(children[..i], last);
        LeavesOfAppend(children[..i], Dir(parts[0], below));
      } else {
        assert Reachable([], parts[1..]);
        HangAppends([], parts[1..], file);
        var below := Hang([], parts[1..], file);
        LeavesOfAppend(children, Dir(parts[0], below));
        assert LeavesOf(below) == [file];
      }
    }
  }

  // ----- which directories exist -----

  /** The tree holds the directory with these parts. */
  ghost predicate HasDir(children: seq<Node>, dir: seq<string>)
    decreases |dir|
  {
    dir != [] ==>
      var i := DirIndex(children, dir[0]);
      i < |children| && HasDir(children[i].children, dir[1..])
  }

  /** Hanging a file adds only directories on its own path. */
  lemma {:induction false} HangAddsOwnDirs(children: seq<Node>, parts: seq<string>, file: Listed, dir: seq<string>)
    requires parts != [] && HasDir(Hang(children, parts, file), dir)
    ensures HasDir(children, dir) || Under(dir, parts)
    decreases |parts|
  {
    if dir == [] { return; }
    var grown := Hang(children, parts, file);
    var i := DirIndex(grown, dir[0]);
    if |parts| == 1 {
      SameDirIndex(children, grown, dir[0]);
      assert grown[..|children|] == children;
      return;
    }
    var k := DirIndex(children, parts[0]);
    if k < |children| {
      DirIndexUpdate(children, k, grown[k], dir[0]);
      if i == k {
        HangAddsOwnDirs(children[k].children, parts[1..], file, dir[1..]);
        if Under(dir[1..], parts[1..]) {
          assert parts[..|dir|] == [parts[0]] + parts[1..][..|dir| - 1];
        }
      }
    } else {
      SameDirIndex(children, grown, dir[0]);
      if i == |children| {
        HangAddsOwnDirs([], parts[1..], file, dir[1..]);
        if dir[1..] == [] {
          assert parts[..1] == [parts[0]] == dir;
        } else {
          assert DirIndex([], dir[1]) == 0;
          assert parts[..|dir|] == [parts[0]] + parts[1..][..|dir| - 1];
        }
      }
    }
  }

  lemma {:induction false} SameDirIndex(children: seq<Node>, grown: seq<Node>, name: string)
    requires |children| <= |grown| && grown[..|children|] == children
    ensures DirIndex(children, name) < |children| ==> DirIndex(grown, name) == DirIndex(children, name)
    ensures DirIndex(grown, name) < |children| ==> DirIndex(grown, name) == DirIndex(children, name)
  {
    assert forall j :: 0 <= j < |children| ==> grown[j] == grown[..|children|][j];
  }

  lemma {:induction false} DirIndexUpdate(children: seq<Node>, k: nat, n: Node, name: string)
    requires k < |children| && n.Dir? && children[k].Dir? && n.name == children[k].name
    ensures DirIndex(children[k := n], name) == DirIndex(children, name)
  {
    if k == 0 {
      assert children[k := n][1..] == children[1..];
    } else {
      DirIndexUpdate(children[1..], k - 1, n, name);
      assert children[k := n][1..] == children[1..][k - 1 := n];
    }
  }

  /** When every directory the tree shares with `parts` also lies on the path of the file hung
      last, the rightmost branch leads along `parts`. */
  lemma {:induction false} SharedDirsAreReachable(children: seq<Node>, last: seq<string>, parts: seq<string>)
    requires parts != [] && last != [] && NamesUnique(children) && EndsAt(children, last)
    requires forall dir :: Under(dir, parts) && HasDir(children, dir) ==> Under(dir, last)
    ensures Reachable(children, parts)
    decreases |parts|
  {
    if |parts| > 1 && DirIndex(children, parts[0]) < |children| {
      var i := DirIndex(children, parts[0]);
      var dir := [parts[0]];
      assert dir[1..] == [] && parts[..1] == dir;
      assert HasDir(children, dir);
      assert Under(dir, last);
      assert last[0] == last[..1][0] == parts[0];
      var end := children[|children| - 1];
      assert end.Dir? && end.name == parts[0];
      assert i == |children| - 1;
      forall d | Under(d, parts[1..]) && HasDir(end.children, d)
        ensures Under(d, last[1..])
      {
        var full := [parts[0]] + d;
        assert full[1..] == d;
        assert parts[..|full|] == [parts[0]] + parts[1..][..|d|];
        assert HasDir(children, full);
        assert Under(full, last);
        assert last[1..][..|d|] == last[..|full|][1..];
      }
      SharedDirsAreReachable(end.children, last[1..], parts[1..]);
    }
  }

  lemma {:induction false} NoDirsInNothing(dir: seq<string>)
    requires HasDir([], dir)
    ensures dir == []
  {
  }

  // ----- the listing theorem -----

  ghost predicate AscendingRows(rows: seq<Listed>) {
    forall i, j :: 0 <= i < j < |rows| ==> Ordering.AtMost(rows[i].path, rows[j].path)
  }

  /** Some row of the list lies under the directory. */
  ghost predicate Holds(rows: seq<Listed>, dir: seq<string>) {
    exists i :: 0 <= i < |rows| && Under(dir, Split(rows[i].path))
  }

  /** Every directory of the tree has a file below it. */
  ghost predicate DirsComeFrom(children: seq<Node>, rows: seq<Listed>) {
    forall dir :: HasDir(children, dir) && dir != [] ==> Holds(rows, dir)
  }

  lemma GrowKeepsDirsFull(rows: seq<Listed>)
    requires rows != [] && DirsComeFrom(Grow(rows[..|rows| - 1]), rows[..|rows| - 1])
    ensures DirsComeFrom(Grow(rows), rows)
  {
    var n := |rows| - 1;
    var before := rows[..n];
    forall dir | HasDir(Grow(rows), dir) && dir != [] ensures Holds(rows, dir) {
      HangAddsOwnDirs(Grow(before), Split(rows[n].path), rows[n], dir);
      if HasDir(Grow(before), dir) { StillHolds(rows, n, dir); }
    }
    hide HasDir, Split, Hang, Under;
  }

  lemma StillHolds(rows: seq<Listed>, n: nat, dir: seq<string>)
    requires n <= |rows| && Holds(rows[..n], dir)
    ensures Holds(rows, dir)
  {
    var i :| 0 <= i < n && Under(dir, Split(rows[..n][i].path));
    assert rows[..n][i] == rows[i];
  }

  /** The next row of an ascending list finds its existing directories on the rightmost branch. */
  lemma NextRowIsReachable(children: seq<Node>, rows: seq<Listed>)
    requires |rows| > 1 && AscendingRows(rows)
    requires NamesUnique(children) && DirsComeFrom(children, rows[..|rows| - 1])
    requires EndsAt(children, Split(rows[|rows| - 2].path))
    ensures Reachable(children, Split(rows[|rows| - 1].path))
  {
    var n := |rows| - 1;
    var last, parts := Split(rows[n - 1].path), Split(rows[n].path);
    forall dir | Under(dir, parts) && HasDir(children, dir) ensures Under(dir, last) {
      if dir != [] {
        assert Holds(rows[..n], dir);
        var i :| 0 <= i < n && Under(dir, Split(rows[..n][i].path));
        if i < n - 1 {
          DirectoriesAreContiguous(dir, rows[i].path, rows[n - 1].path, rows[n].path);
        }
      }
    }
    SharedDirsAreReachable(children, last, parts);
  }

  /** Growing the tree from an ascending list, its depth-first listing is that list. */
  lemma {:induction false} GrowListsInOrder(rows: seq<Listed>)
    requires AscendingRows(rows)
    ensures LeavesOf(Grow(rows)) == rows
    ensures NamesUnique(Grow(rows)) && DirsComeFrom(Grow(rows), rows)
    ensures rows != [] ==> EndsAt(Grow(rows), Split(rows[|rows| - 1].path))
  {
    if rows == [] {
      forall dir | HasDir(Grow(rows), dir) ensures dir == [] { NoDirsInNothing(dir); }
    } else {
      var n := |rows| - 1;
      var before, parts := rows[..n], Split(rows[n].path);
      GrowListsInOrder(before);
      if n > 0 {
        NextRowIsReachable(Grow(before), rows);
      }
      HangAppends(Grow(before), parts, rows[n]);
      GrowKeepsDirsFull(rows);
      assert rows == before + [rows[n]];
    }
  }

  /** The depth-first listing of a workspace's tree is its sorted flat file list, and each
      directory has one node. */
  lemma TreeListsTheFiles(files: Snapshot)
    ensures Leaves(TreeOf(files)) == Listing(files)
    ensures NamesUnique(TreeOf(files).children)
  {
    Ordering.SortedAscends(files.Keys);
    GrowListsInOrder(Listing(files));
  }

  // ----- every file in its place -----

  /** Below the directory with the parts `above` every file hangs where its path says, and no directory is
      empty. */
  predicate InPlace(children: seq<Node>, above: seq<string>) {
    forall i | 0 <= i < |children| :: NodeInPlace(children[i], above)
  }

  predicate NodeInPlace(n: Node, above: seq<string>) {
    match n
    case File(name, f) => Split(f.path) == above + [name]
    case Dir(name, children) => children != [] && InPlace(children, above + [name])
  }

  lemma {:induction false} HangKeepsPlaces(children: seq<Node>, parts: seq<string>, file: Listed, above: seq<string>)
    requires parts != [] && InPlace(children, above) && Split(file.path) == above + parts
    ensures InPlace(Hang(children, parts, file), above) && Hang(children, parts, file) != []
    decreases |parts|
  {
    hide Split;
    if |parts| == 1 {
      assert NodeInPlace(File(parts[0], file), above);
    } else {
      var i := DirIndex(children, parts[0]);
      var kids := if i < |children| then children[i].children else [];
      if i < |children| { assert NodeInPlace(children[i], above); }
      assert above + parts == (above + [parts[0]]) + parts[1..];
      HangKeepsPlaces(kids, parts[1..], file, above + [parts[0]]);
      assert NodeInPlace(Dir(parts[0], Hang(kids, parts[1..], file)), above);
    }
  }

  lemma {:induction false} GrowKeepsPlaces(rows: seq<Listed>)
    ensures InPlace(Grow(rows), [])
  {
    if rows != [] {
      var last := rows[|rows| - 1];
      GrowKeepsPlaces(rows[..|rows| - 1]);
      assert [] + Split(last.path) == Split(last.path);
      HangKeepsPlaces(Grow(rows[..|rows| - 1]), Split(last.path), last, []);
    }
  }

  /** In a workspace's tree the directories above a file, and its own name, are the parts of its path. */
  lemma FilesAreInPlace(files: Snapshot)
    ensures InPlace(TreeOf(files).children, [])
  {
    GrowKeepsPlaces(Listing(files));
  }
}
