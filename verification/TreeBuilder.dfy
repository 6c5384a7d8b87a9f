/** Building the directory tree in place, as `tree_workspace` does: a table of the directories made so
    far, to whose child lists directories and files are appended while the sorted paths go by. */
module TreeBuilder {
  import opened DirectoryTree
  import Ordering

  type Key = seq<string>

  datatype Child = SubDir(name: string) | Leaf(name: string, file: Listed)

  /** The child list of every directory, by the parts of its path. */
  type Table = map<Key, seq<Child>>

  // ----- the tree a table stands for -----

  /** The directory at a key has these children, all the way down. */
  ghost predicate Shows(t: Table, key: Key, children: seq<Node>)
    decreases children
  {
    && key in t && |t[key]| == |children|
    && forall i | 0 <= i < |children| ::
         match children[i]
         case File(name, file) => t[key][i] == Leaf(name, file)
         case Dir(name, below) => t[key][i] == SubDir(name) && Shows(t, key + [name], below)
  }

  /** A directory is in the table exactly when its parent lists it. */
  ghost predicate Linked(t: Table) {
    forall key, name :: key + [name] in t <==> key in t && SubDir(name) in t[key]
  }

  /** Nothing at a key or below it differs between two tables. */
  ghost predicate SameBelow(t: Table, u: Table, key: Key) {
    forall k :: key <= k ==> (k in t <==> k in u) && (k in t ==> t[k] == u[k])
  }

  lemma {:induction false} ShowsTheSame(t: Table, u: Table, key: Key, children: seq<Node>)
    requires Shows(t, key, children) && SameBelow(t, u, key)
    ensures Shows(u, key, children)
    decreases children
  {
    forall i | 0 <= i < |children| && children[i].Dir?
      ensures Shows(u, key + [children[i].name], children[i].children)
    {
      ShowsTheSame(t, u, key + [children[i].name], children[i].children);
    }
  }

  // ----- one file -----

  /** The directory `name` under a key, made if it is missing. */
  function MakeDir(t: Table, key: Key, name: string): Table
    requires key in t
  {
    if key + [name] in t then t else t[key + [name] := []][key := t[key] + [SubDir(name)]]
  }

  /** A file put where its remaining parts lead from a key. */
  function Put(t: Table, key: Key, parts: seq<string>, file: Listed): Table
    requires parts != [] && key in t
    decreases |parts|
  {
    if |parts| == 1 then t[key := t[key] + [Leaf(parts[0], file)]]
    else Put(MakeDir(t, key, parts[0]), key + [parts[0]], parts[1..], file)
  }

  lemma {:induction false} PutStaysBelow(t: Table, key: Key, parts: seq<string>, file: Listed, k: Key)
    requires parts != [] && key in t && !(key <= k)
    ensures var u := Put(t, key, parts, file); (k in t <==> k in u) && (k in t ==> t[k] == u[k])
    decreases |parts|
  {
    if |parts| > 1 {
      assert key <= key + [parts[0]];
      PutStaysBelow(MakeDir(t, key, parts[0]), key + [parts[0]], parts[1..], file, k);
    }
  }

  lemma MakeDirLinks(t: Table, key: Key, name: string)
    requires Linked(t) && key in t
    ensures Linked(MakeDir(t, key, name))
  {
    var dir := key + [name];
    if dir !in t {
      var u := MakeDir(t, key, name);
      forall k, n ensures k + [n] in u <==> k in u && SubDir(n) in u[k] {
        assert k + [n] in t <==> k in t && SubDir(n) in t[k];
        LastPart(k, n, key, name);
        if k == key {
          assert u[key] == t[key] + [SubDir(name)];
        } else if k == dir {
          assert |dir + [n]| == |key| + 2;
        }
      }
    }
  }

  lemma LastPart(k: Key, n: string, key: Key, name: string)
    ensures k + [n] == key + [name] <==> k == key && n == name
  {
    if k + [n] == key + [name] {
      assert k == (k + [n])[..|k|] && key == (key + [name])[..|key|];
      assert n == (k + [n])[|k|];
    }
  }

  lemma LeafKeepsLinks(t: Table, key: Key, name: string, file: Listed)
    requires Linked(t) && key in t
    ensures Linked(t[key := t[key] + [Leaf(name, file)]])
  {
  }

  lemma {:induction false} PutLinks(t: Table, key: Key, parts: seq<string>, file: Listed)
    requires Linked(t) && key in t && parts != []
    ensures Linked(Put(t, key, parts, file))
    decreases |parts|
  {
    hide Linked;
    if |parts| == 1 {
      LeafKeepsLinks(t, key, parts[0], file);
    } else {
      MakeDirLinks(t, key, parts[0]);
      PutLinks(MakeDir(t, key, parts[0]), key + [parts[0]], parts[1..], file);
    }
  }

  // ----- putting a file in the table is hanging it in the tree -----

  /** A child directory is listed in the table exactly when the tree has it. */
  lemma DirIsListed(t: Table, key: Key, children: seq<Node>, name: string)
    requires Linked(t) && Shows(t, key, children)
    ensures key + [name] in t <==> DirIndex(children, name) < |children|
  {
    var i := DirIndex(children, name);
    if i < |children| {
      assert t[key][i] == SubDir(name);
    }
    if SubDir(name) in t[key] {
      var j :| 0 <= j < |t[key]| && t[key][j] == SubDir(name);
      assert children[j].Dir? && children[j].name == name;
    }
  }

  /** What is put below one child directory leaves the other children as they were. */
  lemma OthersStay(t: Table, key: Key, name: string, parts: seq<string>, file: Listed, other: string)
    requires parts != [] && key + [name] in t && other != name
    ensures SameBelow(t, Put(t, key + [name], parts, file), key + [other])
  {
    forall k | key + [other] <= k
      ensures var u := Put(t, key + [name], parts, file); (k in t <==> k in u) && (k in t ==> t[k] == u[k])
    {
      assert k[|key|] == other;
      PutStaysBelow(t, key + [name], parts, file, k);
    }
  }


  lemma LeafShows(t: Table, key: Key, children: seq<Node>, name: string, file: Listed)
    requires Shows(t, key, children)
    ensures Shows(t[key := t[key] + [Leaf(name, file)]], key, children + [File(name, file)])
  {
    var u := t[key := t[key] + [Leaf(name, file)]];
    forall i | 0 <= i < |children| && children[i].Dir?
      ensures Shows(u, key + [children[i].name], children[i].children)
    {
      ShowsTheSame(t, u, key + [children[i].name], children[i].children);
    }
  }

  /** A new directory is an empty last child. */
  lemma MadeShows(t: Table, key: Key, children: seq<Node>, name: string)
    requires Linked(t) && Shows(t, key, children) && DirIndex(children, name) == |children|
    ensures Shows(MakeDir(t, key, name), key, children + [Dir(name, [])])
  {
    DirIsListed(t, key, children, name);
    var u := MakeDir(t, key, name);
    assert Shows(u, key + [name], []);
    forall i | 0 <= i < |children| && children[i].Dir?
      ensures Shows(u, key + [children[i].name], children[i].children)
    {
      var at := key + [children[i].name];
      forall k | at <= k ensures (k in t <==> k in u) && (k in t ==> t[k] == u[k]) {
        assert k[|key|] == children[i].name != name;
      }
      ShowsTheSame(t, u, at, children[i].children);
    }
  }

  /** Putting a file below a child directory changes that child alone. */
  lemma BelowShows(t: Table, key: Key, children: seq<Node>, i: nat, parts: seq<string>, file: Listed, grown: seq<Node>)
    requires i < |children| && children[i].Dir? && key + [children[i].name] in t && OnlyAt(children, i)
    requires Shows(t, key, children) && parts != []
    requires Shows(Put(t, key + [children[i].name], parts, file), key + [children[i].name], grown)
    ensures Shows(Put(t, key + [children[i].name], parts, file), key, children[i := Dir(children[i].name, grown)])
  {
    var name := children[i].name;
    var u := Put(t, key + [name], parts, file);
    assert |key| < |key + [name]|;
    PutStaysBelow(t, key + [name], parts, file, key);
    forall j | 0 <= j < |children| && j != i && children[j].Dir?
      ensures Shows(u, key + [children[j].name], children[j].children)
    {
      OthersStay(t, key, name, parts, file, children[j].name);
      ShowsTheSame(t, u, key + [children[j].name], children[j].children);
    }
  }

  /** No other child directory has the name of the one at `i`. */
  ghost predicate OnlyAt(children: seq<Node>, i: nat)
    requires i < |children| && children[i].Dir?
  {
    forall j :: 0 <= j < |children| && j != i && children[j].Dir? ==> children[j].name != children[i].name
  }

  /** A directory there is, or a new one put last, is the only one of its name. */
  lemma FullIsOnly(children: seq<Node>, name: string)
    requires NamesUnique(children)
    ensures var i := DirIndex(children, name);
      if i < |children| then OnlyAt(children, i) && NamesUnique(children[i].children)
      else OnlyAt(children + [Dir(name, [])], i)
  {
  }

  /** Putting a file in the table is hanging it in the tree the table stands for. */
  lemma {:induction false} PutHangs(t: Table, key: Key, children: seq<Node>, parts: seq<string>, file: Listed)
    requires Linked(t) && Shows(t, key, children) && NamesUnique(children) && parts != []
    ensures Shows(Put(t, key, parts, file), key, Hang(children, parts, file))
    decreases |parts|
  {
    var name := parts[0];
    if |parts| == 1 {
      LeafShows(t, key, children, name, file);
    } else {
      hide Linked, Shows, NamesUnique, OnlyAt;
      var i, made := DirIndex(children, name), MakeDir(t, key, name);
      DirIsListed(t, key, children, name);
      MakeDirLinks(t, key, name);
      var full := if i < |children| then children else children + [Dir(name, [])];
      FullIsOnly(children, name);
      if i == |children| {
        MadeShows(t, key, children, name);
        NothingIsUnique();
      }
      ChildShows(made, key, full, i);
      PutHangs(made, key + [name], full[i].children, parts[1..], file);
      BelowShows(made, key, full, i, parts[1..], file, Hang(full[i].children, parts[1..], file));
    }
  }

  lemma ChildShows(t: Table, key: Key, children: seq<Node>, i: nat)
    requires Shows(t, key, children) && i < |children| && children[i].Dir?
    ensures key + [children[i].name] in t && Shows(t, key + [children[i].name], children[i].children)
  {
  }

  lemma NothingIsUnique()
    ensures NamesUnique([])
  {
  }

  // ----- the loops -----

  /** Puts every file of a workspace in the table, in path order: the directories of its path one by
      one from the root, each made when it is first met, and then the file itself. */
  method BuildTable(files: Snapshot) returns (t: Table)
    ensures Linked(t) && Shows(t, [], TreeOf(files).children)
  {
    hide Put, Split, Grow, Linked, Shows, AscendingRows, Listing;
    var rows := Listing(files);
    t := EmptyTable();
    assert rows[..0] == [];
    EmptyShows();
    ListingAscends(files);
    for i := 0 to |rows|
      invariant [] in t && Linked(t) && Shows(t, [], Grow(rows[..i]))
    {
      NextRow(t, rows, i);
      t := PutFile(t, rows[i]);
    }
    assert rows[..|rows|] == rows;
  }

  function EmptyTable(): Table {
    map[[] := []]
  }

  lemma ListingAscends(files: Snapshot)
    ensures AscendingRows(Listing(files))
  {
    Ordering.SortedAscends(files.Keys);
  }

  lemma EmptyShows()
    ensures [] in EmptyTable() && Linked(EmptyTable()) && Shows(EmptyTable(), [], Grow([]))
  {
  }

  lemma NextRow(t: Table, rows: seq<Listed>, i: nat)
    requires i < |rows| && AscendingRows(rows) && [] in t && Linked(t) && Shows(t, [], Grow(rows[..i]))
    ensures var u := Put(t, [], Split(rows[i].path), rows[i]); Linked(u) && Shows(u, [], Grow(rows[..i + 1]))
    ensures [] in Put(t, [], Split(rows[i].path), rows[i])
  {
    hide AscendingRows, Linked, Shows, Hang, Put, Split;
    assert rows[..i + 1][..i] == rows[..i];
    PrefixAscends(rows, i);
    GrowListsInOrder(rows[..i]);
    PutHangs(t, [], Grow(rows[..i]), Split(rows[i].path), rows[i]);
    PutLinks(t, [], Split(rows[i].path), rows[i]);
    RootIsThere(Put(t, [], Split(rows[i].path), rows[i]), Grow(rows[..i + 1]));
  }

  lemma RootIsThere(t: Table, children: seq<Node>)
    requires Shows(t, [], children)
    ensures [] in t
  {
  }

  lemma PrefixAscends(rows: seq<Listed>, i: nat)
    requires i <= |rows| && AscendingRows(rows)
    ensures AscendingRows(rows[..i])
  {
  }

  method PutFile(t0: Table, file: Listed) returns (t: Table)
    requires [] in t0
    ensures t == Put(t0, [], Split(file.path), file)
  {
    t := t0;
    var parts := Split(file.path);
    var dir: Key := [];
    for i := 0 to |parts| - 1
      invariant dir == parts[..i] && dir in t
      invariant Put(t0, [], parts, file) == Put(t, dir, parts[i..], file)
    {
      assert parts[i..][1..] == parts[i + 1..];
      assert parts[..i + 1] == dir + [parts[i]];
      t := MakeDir(t, dir, parts[i]);
      dir := dir + [parts[i]];
    }
    t := t[dir := t[dir] + [Leaf(parts[|parts| - 1], file)]];
  }

  /** Reads a tree back out of its table. */
  method Collect(t: Table, key: Key, ghost children: seq<Node>) returns (nodes: seq<Node>)
    requires Shows(t, key, children)
    ensures nodes == children
    decreases children
  {
    nodes := [];
    for i := 0 to |t[key]|
      invariant nodes == children[..i]
    {
      match t[key][i]
      case Leaf(name, file) => nodes := nodes + [File(name, file)];
      case SubDir(name) =>
        var below := Collect(t, key + [name], children[i].children);
        nodes := nodes + [Dir(name, below)];
    }
  }

  method BuildTree(files: Snapshot) returns (tree: Node)
    ensures tree == TreeOf(files)
  {
    var t := BuildTable(files);
    var children := Collect(t, [], TreeOf(files).children);
    tree := Dir("/", children);
  }
}
