/** What reads and listings tell of a file: its content, hash, size, source and place in the list. */
module Listings {
  import opened Wrappers
  import opened History
  import opened Workspaces
  import Ordering
  import Runs

  // ----- sizes -----

  /** A character's bytes in UTF-8. */
  function Utf8(c: char): seq<nat> {
    var n := c as nat;
    if n < 0x80 then [n]
    else if n < 0x800 then [0xC0 + n / 0x40, 0x80 + n % 0x40]
    else if n < 0x10000 then [0xE0 + n / 0x1000, 0x80 + n / 0x40 % 0x40, 0x80 + n % 0x40]
    else [0xF0 + n / 0x40000, 0x80 + n / 0x1000 % 0x40, 0x80 + n / 0x40 % 0x40, 0x80 + n % 0x40]
  }

  function Encoded(s: string): seq<nat> {
    if s == [] then [] else Utf8(s[0]) + Encoded(s[1..])
  }

  lemma {:induction false} ByteSizeIs(s: string)
    ensures ByteSize(s) == |Encoded(s)|
  {
    if s != [] { ByteSizeIs(s[1..]); }
  }

  /** Every blob's size is the length of its content's encoding. */
  ghost predicate Sized(blobs: Blobs) {
    forall h :: h in blobs ==> blobs[h].size == |Encoded(blobs[h].content)|
  }

  lemma StepKeepsSizes(s: Store, op: Op)
    requires Inv(s) && Sized(s.blobs)
    ensures Sized(Step(s, op).0.blobs)
  {
    hide Inv, Effective, SourceDelta, CommitReply, MergeReply, ReadFile, ReadFileAt, ListFiles, TreeWorkspace, Ancestor;
    hide Encoded, ByteSize;
    if op.OpWrite? { ByteSizeIs(op.content); }
  }

  lemma {:induction false} RunKeepsSizes(s: Store, ops: seq<Op>)
    requires Inv(s) && Sized(s.blobs)
    ensures Sized(Runs.Run(s, ops).0.blobs)
    decreases |ops|
  {
    hide Inv, Keeps, Sized, Step;
    if ops != [] {
      StepGood(s, ops[0]);
      StepKeepsSizes(s, ops[0]);
      RunKeepsSizes(Step(s, ops[0]).0, ops[1..]);
    }
  }

  // ----- reads -----

  /** A read is told by the visible tree and the staged rows alone. */
  lemma ReadShows(s: Store, ws: string, p: Path)
    requires Inv(s) && ws in s.workspaces
    ensures match Get(Visible(s, ws), p)
      case Some(h) =>
        var source := if p in StagedOf(s, ws) then FromStaging else FromHistory;
        && h in s.blobs
        && ReadFile(s, ws, p) == File(FileView(ws, p, s.blobs[h].content, h, source, s.workspaces[ws].head))
      case None => ReadFile(s, ws, p) == Failed(NotFound)
  {
    ReadAgreesWithList(s, ws, p);
    ReadNames(s, ws, p);
    hide Visible, ReadFile, SnapshotFor, Inv;
  }

  lemma ReadNames(s: Store, ws: string, p: Path)
    requires Inv(s) && ws in s.workspaces
    ensures var r := ReadFile(s, ws, p);
      r.File? ==> r.file.workspace == ws && r.file.path == p && r.file.head == s.workspaces[ws].head
  {
    hide Resolve;
  }

  // ----- listings -----

  /** One row of a listing says what the visible tree holds, how large that is, and whether it is staged. */
  predicate RowShows(s: Store, ws: string, row: DirectoryTree.Listed)
    requires Inv(s) && ws in s.workspaces
  {
    HeadsExist(s, ws);
    && Get(Visible(s, ws), row.path) == Some(row.info.hash)
    && row.info.hash in s.blobs && row.info.size == s.blobs[row.info.hash].size
    && (row.info.staged <==> row.path in StagedOf(s, ws))
  }

  /** A listing has one row for each visible path, in ascending order, which says what a read finds. */
  lemma ListShows(s: Store, ws: string)
    requires Inv(s) && ws in s.workspaces
    ensures ListFiles(s, ws).Files? && ListFiles(s, ws).head == s.workspaces[ws].head
    ensures var rows := ListFiles(s, ws).rows;
      && |rows| == |Visible(s, ws)|
      && (forall i | 0 <= i < |rows| :: RowShows(s, ws, rows[i]))
      && (forall i, j | 0 <= i < j < |rows| ::
            rows[i].path != rows[j].path && Ordering.AtMost(rows[i].path, rows[j].path))
  {
    var files := SnapshotFor(s, ws);
    var rows := DirectoryTree.Listing(files);
    SnapshotIs(s, ws);
    Ordering.SortedAscends(files.Keys);
    assert |files.Keys| == |Visible(s, ws).Keys|;
    forall i | 0 <= i < |rows| ensures RowShows(s, ws, rows[i]) { RowIs(s, ws, rows[i]); }
    hide Visible, SnapshotFor, RowShows;
  }

  lemma SnapshotIs(s: Store, ws: string)
    requires Inv(s) && ws in s.workspaces
    ensures SnapshotFor(s, ws).Keys == Visible(s, ws).Keys
  {
    hide Visible;
  }

  lemma RowIs(s: Store, ws: string, row: DirectoryTree.Listed)
    requires Inv(s) && ws in s.workspaces && row.path in SnapshotFor(s, ws) && row.info == SnapshotFor(s, ws)[row.path]
    ensures RowShows(s, ws, row)
  {
    ReadAgreesWithList(s, ws, row.path);
    hide Visible, ReadFile;
  }

  /** After every run from a fresh database, the size in a listing is the number of bytes of what a read
      of that path finds. */
  lemma SizesAreBytes(root: CommitId, ops: seq<Op>, ws: string, i: nat)
    requires var s := Runs.Run(Initial(root), ops).0;
      ws in s.workspaces && Inv(s) && i < |ListFiles(s, ws).rows|
    ensures var s := Runs.Run(Initial(root), ops).0;
      var row := ListFiles(s, ws).rows[i];
      ReadFile(s, ws, row.path).File? && row.info.size == |Encoded(ReadFile(s, ws, row.path).file.content)|
  {
    var s := Runs.Run(Initial(root), ops).0;
    RunKeepsSizes(Initial(root), ops);
    ListShows(s, ws);
    var row := ListFiles(s, ws).rows[i];
    assert RowShows(s, ws, row);
    ReadShows(s, ws, row.path);
    hide ListFiles, Encoded, Visible, ReadFile, Runs.Run;
  }
}
