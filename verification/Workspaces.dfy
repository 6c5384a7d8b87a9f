/** The tables of the workspace database and what each public operation does to them.

    Every operation is one atomic step: a function from the tables to the new tables and the reply.
    An operation that raises leaves the tables as they were. */
module Workspaces {
  import opened Wrappers
  import opened History
  import DirectoryTree
  import Paths

  datatype Blob = Blob(content: string, size: nat)

  datatype Workspace = Workspace(head: CommitId, base: CommitId, tracking: Option<string>)

  datatype Snapshot = Snapshot(workspace: string, commit: CommitId)

  /** The tables.  `staged` has an entry for each workspace with staged rows. */
  datatype Store = Store(
    blobs: map<Hash, Blob>,
    commits: Graph,
    workspaces: map<string, Workspace>,
    staged: map<string, Changes>,
    snapshots: map<string, Snapshot>)

  datatype Conflict = Conflict(source: Change, target: Change)

  datatype StoreError =
    | NotFound
    | Invalid
    | NotAnAncestor
    | Conflicting(conflicts: map<Path, Conflict>)
    | Rejected
    | DuplicateCommit

  datatype Source = FromStaging | FromHistory | FromCommit(at: CommitId)

  datatype FileView =
    FileView(workspace: string, path: Path, content: string, hash: Hash, source: Source, head: CommitId)

  datatype Reply =
    | Done
    | Noop(head: CommitId)
    | Committed(commit: CommitId, paths: set<Path>)
    | File(file: FileView)
    | Files(head: CommitId, rows: seq<DirectoryTree.Listed>)
    | Tree(root: CommitId, tree: DirectoryTree.Node)
    | Failed(error: StoreError)

  const MAIN := "main"

  // ----- text helpers -----

  function Utf8Size(c: char): nat {
    if c < 0x80 as char then 1 else if c < 0x800 as char then 2 else if c < 0x10000 as char then 3 else 4
  }

  /** The number of bytes of a text in UTF-8. */
  function ByteSize(s: string): nat {
    if s == [] then 0 else Utf8Size(s[0]) + ByteSize(s[1..])
  }

  /** A message that `strip` would leave empty. */
  predicate Blank(s: string) {
    Paths.Strip(s) == ""
  }

  // ----- reading the tables -----

  function StagedOf(s: Store, ws: string): Changes {
    if ws in s.staged then s.staged[ws] else map[]
  }

  /** The tree a workspace shows: its head's tree with its staged rows written over it. */
  function Visible(s: Store, ws: string): History.Tree
    requires WellFormed(s.commits) && ws in s.workspaces && s.workspaces[ws].head in s.commits
  {
    Overlay(TreeAt(s.commits, s.workspaces[ws].head), StagedOf(s, ws))
  }

  function SizeOf(s: Store, h: Hash): nat {
    if h in s.blobs then s.blobs[h].size else 0
  }

  /** The rows `list_files` and `tree_workspace` work from. */
  function SnapshotFor(s: Store, ws: string): DirectoryTree.Snapshot
    requires WellFormed(s.commits) && ws in s.workspaces && s.workspaces[ws].head in s.commits
  {
    map p | p in Visible(s, ws) ::
      var h := Visible(s, ws)[p]; DirectoryTree.FileInfo(h, SizeOf(s, h), p in StagedOf(s, ws))
  }

  /** The staged rows that would change something at the head. */
  function Effective(s: Store, ws: string): Changes
    requires WellFormed(s.commits) && ws in s.workspaces && s.workspaces[ws].head in s.commits
  {
    var staged := StagedOf(s, ws);
    map p | p in staged && Leaves(staged[p]) != Get(TreeAt(s.commits, s.workspaces[ws].head), p) :: staged[p]
  }

  /** The paths on which two deltas disagree. */
  function Conflicts(source: Changes, target: Changes): map<Path, Conflict> {
    map p | p in source && p in target && source[p] != target[p] :: Conflict(source[p], target[p])
  }

  // ----- what holds of every reachable store -----

  type Blobs = map<Hash, Blob>

  ghost predicate BlobsExist(blobs: Blobs, ch: Changes) {
    forall p :: p in ch && ch[p].Upsert? ==> ch[p].hash in blobs
  }

  /** A workspace row is in order: its commits exist, its base is an ancestor of its head, and they
      are the same commit when it tracks nothing. */
  ghost predicate RowInOrder(g: Graph, w: Workspace)
    requires WellFormed(g)
  {
    && w.head in g && w.base in g
    && Ancestor(g, w.base, w.head)
    && (w.tracking.None? ==> w.base == w.head)
  }

  ghost predicate RowsInOrder(g: Graph, workspaces: map<string, Workspace>)
    requires WellFormed(g)
  {
    forall ws :: ws in workspaces ==> RowInOrder(g, workspaces[ws])
  }

  ghost predicate HistoryStored(blobs: Blobs, g: Graph) {
    forall c :: c in g ==> BlobsExist(blobs, g[c].changes)
  }

  ghost predicate StagingInOrder(blobs: Blobs, staged: map<string, Changes>, names: set<string>) {
    forall ws :: ws in staged ==> ws in names && BlobsExist(blobs, staged[ws])
  }

  ghost predicate SnapshotsInOrder(g: Graph, snapshots: map<string, Snapshot>) {
    forall n :: n in snapshots ==> snapshots[n].commit in g
  }

  ghost predicate OnlyMainIsUntracked(workspaces: map<string, Workspace>) {
    MAIN in workspaces && forall ws :: ws in workspaces ==> (workspaces[ws].tracking.None? <==> ws == MAIN)
  }

  ghost predicate Inv(s: Store) {
    && WellFormed(s.commits) && Ranked(s.commits)
    && HistoryStored(s.blobs, s.commits)
    && RowsInOrder(s.commits, s.workspaces)
    && StagingInOrder(s.blobs, s.staged, s.workspaces.Keys)
    && SnapshotsInOrder(s.commits, s.snapshots)
    && OnlyMainIsUntracked(s.workspaces)
  }

  lemma HeadsExist(s: Store, ws: string)
    requires Inv(s)
    ensures WellFormed(s.commits)
    ensures ws in s.workspaces ==>
      && s.workspaces[ws].head in s.commits && s.workspaces[ws].base in s.commits
      && Ancestor(s.commits, s.workspaces[ws].base, s.workspaces[ws].head)
  {
  }

  // ----- operations -----

  function Initial(root: CommitId): (s: Store)
    ensures Inv(s)
  {
    Store(map[], map[root := Commit(None, map[], 0)], map[MAIN := Workspace(root, root, None)], map[], map[])
  }

  function CreateWorkspace(s: Store, name: string, from: string): (Store, Reply) {
    if name == "" || name == from then (s, Failed(Invalid))
    else if from !in s.workspaces then (s, Failed(NotFound))
    else if name in s.workspaces then (s, Failed(Invalid))
    else
      var head := s.workspaces[from].head;
      (SetRow(s, name, Workspace(head, head, Some(from))), Done)
  }

  function Stage(s: Store, ws: string, p: Path, ch: Change): Store {
    s.(staged := s.staged[ws := StagedOf(s, ws)[p := ch]])
  }

  /** The first content stored under a hash stays. */
  function StoreBlob(s: Store, h: Hash, content: string): Store {
    if h in s.blobs then s else s.(blobs := s.blobs[h := Blob(content, ByteSize(content))])
  }

  function WriteFile(s: Store, ws: string, p: Path, h: Hash, content: string): (Store, Reply) {
    if ws !in s.workspaces then (s, Failed(NotFound))
    else (Stage(StoreBlob(s, h, content), ws, p, Upsert(h)), Done)
  }

  function DeleteFile(s: Store, ws: string, p: Path): (Store, Reply) {
    if ws !in s.workspaces then (s, Failed(NotFound))
    else (Stage(s, ws, p, Delete), Done)
  }

  function ReadBlob(s: Store, ws: string, p: Path, h: Hash, source: Source, head: CommitId): Reply {
    if h in s.blobs then File(FileView(ws, p, s.blobs[h].content, h, source, head)) else Failed(NotFound)
  }

  function ReadFile(s: Store, ws: string, p: Path): Reply
    requires Inv(s)
  {
    if ws !in s.workspaces then Failed(NotFound)
    else
      var head := s.workspaces[ws].head;
      if p in StagedOf(s, ws) then
        match StagedOf(s, ws)[p]
        case Delete => Failed(NotFound)
        case Upsert(h) => ReadBlob(s, ws, p, h, FromStaging, head)
      else
        match Resolve(s.commits, head, p)
        case Some(Upsert(h)) => ReadBlob(s, ws, p, h, FromHistory, head)
        case _ => Failed(NotFound)
  }

  function ReadFileAt(s: Store, ws: string, p: Path, c: CommitId): Reply
    requires Inv(s)
  {
    if ws !in s.workspaces || c !in s.commits then Failed(NotFound)
    else
      match Resolve(s.commits, c, p)
      case Some(Upsert(h)) => ReadBlob(s, ws, p, h, FromCommit(c), c)
      case _ => Failed(NotFound)
  }

  function ListFiles(s: Store, ws: string): Reply
    requires Inv(s)
  {
    if ws !in s.workspaces then Failed(NotFound)
    else Files(s.workspaces[ws].head, DirectoryTree.Listing(SnapshotFor(s, ws)))
  }

  function TreeWorkspace(s: Store, ws: string): Reply
    requires Inv(s)
  {
    if ws !in s.workspaces then Failed(NotFound)
    else Tree(s.workspaces[ws].head, DirectoryTree.TreeOf(SnapshotFor(s, ws)))
  }

  function AddCommit(s: Store, id: CommitId, parent: CommitId, changes: Changes): Store {
    s.(commits := Append(s.commits, id, parent, changes))
  }

  function SetRow(s: Store, ws: string, row: Workspace): Store {
    s.(workspaces := s.workspaces[ws := row])
  }

  function Unstage(s: Store, ws: string): Store {
    s.(staged := s.staged - {ws})
  }

  /** The tables after a successful commit: the base of an untracked workspace moves along. */
  function AfterCommit(s: Store, ws: string, id: CommitId): Store
    requires Inv(s) && ws in s.workspaces
  {
    var row := s.workspaces[ws];
    SetRow(Unstage(AddCommit(s, id, row.head, Effective(s, ws)), ws), ws,
           row.(head := id, base := if row.tracking.None? then id else row.base))
  }

  /** The tables after a successful merge: one commit on the target's head holding the source's
      delta, to which both workspaces move. */
  function AfterMerge(s: Store, source: string, target: string, id: CommitId): Store
    requires Inv(s) && source in s.workspaces && target in s.workspaces
  {
    var src, tgt := s.workspaces[source], s.workspaces[target];
    SetRow(SetRow(AddCommit(s, id, tgt.head, SourceDelta(s, source)),
                  target, tgt.(head := id, base := id)),
           source, src.(head := id, base := id))
  }

  /** How `commit_workspace` answers; `rejected` says whether a policy hook turns the commit down. */
  function CommitReply(s: Store, ws: string, message: string, id: CommitId, rejected: bool): Reply
    requires Inv(s)
  {
    if Blank(message) then Failed(Invalid)
    else if ws !in s.workspaces then Failed(NotFound)
    else if Effective(s, ws) == map[] then Noop(s.workspaces[ws].head)
    else if rejected then Failed(Rejected)
    else if id in s.commits then Failed(DuplicateCommit)
    else Committed(id, Effective(s, ws).Keys)
  }

  function CommitWorkspace(s: Store, ws: string, message: string, id: CommitId, rejected: bool): (Store, Reply)
    requires Inv(s)
  {
    var reply := CommitReply(s, ws, message, id, rejected);
    (if reply.Committed? then AfterCommit(s, ws, id) else s, reply)
  }

  /** What the source of a merge changed since its base. */
  function SourceDelta(s: Store, source: string): Changes
    requires Inv(s) && source in s.workspaces
  {
    Delta(s.commits, s.workspaces[source].head, s.workspaces[source].base)
  }

  /** The paths on which source and target disagree about what happened since the source's base. */
  function MergeConflicts(s: Store, source: string, target: string): map<Path, Conflict>
    requires Inv(s) && source in s.workspaces && target in s.workspaces
    requires Ancestor(s.commits, s.workspaces[source].base, s.workspaces[target].head)
  {
    Conflicts(SourceDelta(s, source), Delta(s.commits, s.workspaces[target].head, s.workspaces[source].base))
  }

  function MergeReply(s: Store, source: string, target: string, message: string, id: CommitId, rejected: bool): Reply
    requires Inv(s)
  {
    if source == target || Blank(message) then Failed(Invalid)
    else if source !in s.workspaces || target !in s.workspaces then Failed(NotFound)
    else if StagedOf(s, source) != map[] then Failed(Invalid)
    else if SourceDelta(s, source) == map[] then Noop(s.workspaces[target].head)
    else if !Ancestor(s.commits, s.workspaces[source].base, s.workspaces[target].head) then Failed(NotAnAncestor)
    else if MergeConflicts(s, source, target) != map[] then Failed(Conflicting(MergeConflicts(s, source, target)))
    else if rejected then Failed(Rejected)
    else if id in s.commits then Failed(DuplicateCommit)
    else Committed(id, SourceDelta(s, source).Keys)
  }

  function MergeWorkspace(s: Store, source: string, target: string, message: string, id: CommitId,
                          rejected: bool): (Store, Reply)
    requires Inv(s)
  {
    var reply := MergeReply(s, source, target, message, id, rejected);
    (if reply.Committed? then AfterMerge(s, source, target, id) else s, reply)
  }

  function CreateSnapshot(s: Store, ws: string, name: string): (Store, Reply) {
    if name == "" then (s, Failed(Invalid))
    else if ws !in s.workspaces then (s, Failed(NotFound))
    else if name in s.snapshots then (s, Failed(Invalid))
    else (s.(snapshots := s.snapshots[name := Snapshot(ws, s.workspaces[ws].head)]), Done)
  }

  function RollbackStaged(s: Store, ws: string): (Store, Reply) {
    if ws !in s.workspaces then (s, Failed(NotFound))
    else (Unstage(s, ws), Done)
  }

  function ResetWorkspace(s: Store, ws: string, c: CommitId): (Store, Reply)
    requires Inv(s)
  {
    if ws !in s.workspaces || c !in s.commits then (s, Failed(NotFound))
    else if !Ancestor(s.commits, c, s.workspaces[ws].head) then (s, Failed(Invalid))
    else
      (SetRow(Unstage(s, ws), ws, s.workspaces[ws].(head := c, base := c)), Done)
  }

  // ----- operations as steps -----

  datatype Op =
    | OpCreate(name: string, from: string)
    | OpWrite(ws: string, path: Path, hash: Hash, content: string)
    | OpDelete(ws: string, path: Path)
    | OpRead(ws: string, path: Path)
    | OpReadAt(ws: string, path: Path, at: CommitId)
    | OpList(ws: string)
    | OpTree(ws: string)
    | OpCommit(ws: string, message: string, id: CommitId, rejected: bool)
    | OpMerge(source: string, target: string, message: string, id: CommitId, rejected: bool)
    | OpSnapshot(ws: string, name: string)
    | OpRollback(ws: string)
    | OpReset(ws: string, commit: CommitId)

  function Step(s: Store, op: Op): (Store, Reply)
    requires Inv(s)
  {
    match op
    case OpCreate(name, from) => CreateWorkspace(s, name, from)
    case OpWrite(ws, p, h, content) => WriteFile(s, ws, p, h, content)
    case OpDelete(ws, p) => DeleteFile(s, ws, p)
    case OpRead(ws, p) => (s, ReadFile(s, ws, p))
    case OpReadAt(ws, p, c) => (s, ReadFileAt(s, ws, p, c))
    case OpList(ws) => (s, ListFiles(s, ws))
    case OpTree(ws) => (s, TreeWorkspace(s, ws))
    case OpCommit(ws, message, id, rejected) => CommitWorkspace(s, ws, message, id, rejected)
    case OpMerge(source, target, message, id, rejected) => MergeWorkspace(s, source, target, message, id, rejected)
    case OpSnapshot(ws, name) => CreateSnapshot(s, ws, name)
    case OpRollback(ws) => RollbackStaged(s, ws)
    case OpReset(ws, c) => ResetWorkspace(s, ws, c)
  }

  // ----- every step keeps the invariant and the history -----

  /** Nothing already stored is touched: commits, blobs and snapshots stay as they are, and no
      workspace disappears. */
  ghost predicate Keeps(s: Store, t: Store) {
    && Extends(s.commits, t.commits)
    && (forall h :: h in s.blobs ==> h in t.blobs && t.blobs[h] == s.blobs[h])
    && (forall n :: n in s.snapshots ==> n in t.snapshots && t.snapshots[n] == s.snapshots[n])
    && s.workspaces.Keys <= t.workspaces.Keys
  }

  ghost predicate Good(s: Store, t: Store) {
    Inv(t) && Keeps(s, t)
  }

  lemma RowsSurvive(g: Graph, h: Graph, workspaces: map<string, Workspace>)
    requires WellFormed(g) && WellFormed(h) && Extends(g, h) && RowsInOrder(g, workspaces)
    ensures RowsInOrder(h, workspaces)
  {
    forall ws | ws in workspaces ensures RowInOrder(h, workspaces[ws]) {
      ExtensionKeepsCommit(g, h, workspaces[ws].head);
    }
  }

  lemma AddCommitKeepsInv(s: Store, id: CommitId, parent: CommitId, changes: Changes)
    requires Inv(s) && parent in s.commits && id !in s.commits && BlobsExist(s.blobs, changes)
    ensures Good(s, AddCommit(s, id, parent, changes))
  {
    var h := Append(s.commits, id, parent, changes);
    AppendExtends(s.commits, id, parent, changes);
    RowsSurvive(s.commits, h, s.workspaces);
  }

  lemma SetRowKeepsInv(s: Store, ws: string, row: Workspace)
    requires Inv(s) && ws in s.workspaces && row.tracking == s.workspaces[ws].tracking && RowInOrder(s.commits, row)
    ensures Good(s, SetRow(s, ws, row))
  {
    assert SetRow(s, ws, row).workspaces.Keys == s.workspaces.Keys;
  }

  lemma UnstageKeepsInv(s: Store, ws: string)
    requires Inv(s)
    ensures Good(s, Unstage(s, ws))
  {
  }

  lemma StageKeepsInv(s: Store, ws: string, p: Path, ch: Change)
    requires Inv(s) && ws in s.workspaces && (ch.Upsert? ==> ch.hash in s.blobs)
    ensures Good(s, Stage(s, ws, p, ch))
  {
    assert BlobsExist(s.blobs, StagedOf(s, ws)[p := ch]);
  }

  lemma StoreBlobKeepsInv(s: Store, h: Hash, content: string)
    requires Inv(s)
    ensures Good(s, StoreBlob(s, h, content))
  {
  }

  lemma KeepsTransitive(s: Store, t: Store, u: Store)
    requires Keeps(s, t) && Keeps(t, u)
    ensures Keeps(s, u)
  {
  }

  lemma {:induction false} DeltaBlobsExist(s: Store, c: CommitId, base: CommitId)
    requires Inv(s) && c in s.commits && Ancestor(s.commits, base, c)
    ensures BlobsExist(s.blobs, Delta(s.commits, c, base))
    decreases s.commits[c].rank
  {
    if c != base {
      DeltaBlobsExist(s, s.commits[c].parent.value, base);
    }
  }

  lemma AddRowKeepsInv(s: Store, ws: string, row: Workspace)
    requires Inv(s) && ws !in s.workspaces && RowInOrder(s.commits, row) && row.tracking.Some?
    ensures Good(s, SetRow(s, ws, row))
  {
    assert SetRow(s, ws, row).workspaces.Keys == s.workspaces.Keys + {ws};
  }

  lemma CreateGood(s: Store, name: string, from: string)
    requires Inv(s)
    ensures Good(s, CreateWorkspace(s, name, from).0)
  {
    if from in s.workspaces && name !in s.workspaces {
      var head := s.workspaces[from].head;
      AddRowKeepsInv(s, name, Workspace(head, head, Some(from)));
    }
  }

  lemma WriteGood(s: Store, ws: string, p: Path, h: Hash, content: string)
    requires Inv(s)
    ensures Good(s, WriteFile(s, ws, p, h, content).0)
  {
    if ws in s.workspaces {
      var s1 := StoreBlob(s, h, content);
      StoreBlobKeepsInv(s, h, content);
      StageKeepsInv(s1, ws, p, Upsert(h));
      KeepsTransitive(s, s1, Stage(s1, ws, p, Upsert(h)));
    }
  }

  lemma DeleteGood(s: Store, ws: string, p: Path)
    requires Inv(s)
    ensures Good(s, DeleteFile(s, ws, p).0)
  {
    if ws in s.workspaces {
      StageKeepsInv(s, ws, p, Delete);
    }
  }

  lemma CommitGood(s: Store, ws: string, message: string, id: CommitId, rejected: bool)
    requires Inv(s)
    ensures Good(s, CommitWorkspace(s, ws, message, id, rejected).0)
  {
    if CommitReply(s, ws, message, id, rejected).Committed? {
      AfterCommitGood(s, ws, id);
    }
  }

  lemma AfterCommitGood(s: Store, ws: string, id: CommitId)
    requires Inv(s) && ws in s.workspaces && id !in s.commits
    ensures Good(s, AfterCommit(s, ws, id))
  {
    var row, effective := s.workspaces[ws], Effective(s, ws);
    AddCommitKeepsInv(s, id, row.head, effective);
    AppendExtends(s.commits, id, row.head, effective);
    var s1 := AddCommit(s, id, row.head, effective);
    var s2 := Unstage(s1, ws);
    UnstageKeepsInv(s1, ws);
    KeepsTransitive(s, s1, s2);
    var row' := row.(head := id, base := if row.tracking.None? then id else row.base);
    SetRowKeepsInv(s2, ws, row');
    KeepsTransitive(s, s2, SetRow(s2, ws, row'));
  }

  lemma MergeGood(s: Store, source: string, target: string, message: string, id: CommitId, rejected: bool)
    requires Inv(s)
    ensures Good(s, MergeWorkspace(s, source, target, message, id, rejected).0)
  {
    if MergeReply(s, source, target, message, id, rejected).Committed? {
      AfterMergeGood(s, source, target, id);
    }
  }

  lemma AfterMergeGood(s: Store, source: string, target: string, id: CommitId)
    requires Inv(s) && source in s.workspaces && target in s.workspaces && id !in s.commits
    ensures Good(s, AfterMerge(s, source, target, id))
  {
    var src, tgt := s.workspaces[source], s.workspaces[target];
    var delta := SourceDelta(s, source);
    DeltaBlobsExist(s, src.head, src.base);
    AddCommitKeepsInv(s, id, tgt.head, delta);
    var s1 := AddCommit(s, id, tgt.head, delta);
    var s2 := SetRow(s1, target, tgt.(head := id, base := id));
    SetRowKeepsInv(s1, target, tgt.(head := id, base := id));
    KeepsTransitive(s, s1, s2);
    SetRowKeepsInv(s2, source, s2.workspaces[source].(head := id, base := id));
    KeepsTransitive(s, s2, AfterMerge(s, source, target, id));
  }

  lemma SnapshotGood(s: Store, ws: string, name: string)
    requires Inv(s)
    ensures Good(s, CreateSnapshot(s, ws, name).0)
  {
    if CreateSnapshot(s, ws, name).1.Done? {
      assert SnapshotsInOrder(s.commits, s.snapshots[name := Snapshot(ws, s.workspaces[ws].head)]);
    }
  }

  lemma MoveKeepsInv(s: Store, ws: string, c: CommitId)
    requires Inv(s) && ws in s.workspaces && Ancestor(s.commits, c, s.workspaces[ws].head)
    ensures Good(s, SetRow(Unstage(s, ws), ws, s.workspaces[ws].(head := c, base := c)))
  {
    var s1, row := Unstage(s, ws), s.workspaces[ws].(head := c, base := c);
    UnstageKeepsInv(s, ws);
    AncestorsExist(s.commits, c, s.workspaces[ws].head);
    SetRowKeepsInv(s1, ws, row);
    KeepsTransitive(s, s1, SetRow(s1, ws, row));
  }

  lemma ResetGood(s: Store, ws: string, c: CommitId)
    requires Inv(s)
    ensures Good(s, ResetWorkspace(s, ws, c).0)
  {
    if ResetWorkspace(s, ws, c).1.Done? { MoveKeepsInv(s, ws, c); }
  }

  lemma RollbackGood(s: Store, ws: string)
    requires Inv(s)
    ensures Good(s, RollbackStaged(s, ws).0)
  {
    UnstageKeepsInv(s, ws);
  }

  lemma UnchangedIsGood(s: Store)
    requires Inv(s)
    ensures Good(s, s)
  {
  }

  /** Every operation keeps the tables in order and touches nothing already stored. */
  lemma StepGood(s: Store, op: Op)
    requires Inv(s)
    ensures Good(s, Step(s, op).0)
  {
    hide Good, Inv, Keeps;
    match op
    case OpCreate(name, from) => CreateGood(s, name, from);
    case OpWrite(ws, p, h, content) => WriteGood(s, ws, p, h, content);
    case OpDelete(ws, p) => DeleteGood(s, ws, p);
    case OpCommit(ws, message, id, rejected) => CommitGood(s, ws, message, id, rejected);
    case OpMerge(source, target, message, id, rejected) => MergeGood(s, source, target, message, id, rejected);
    case OpSnapshot(ws, name) => SnapshotGood(s, ws, name);
    case OpRollback(ws) => RollbackGood(s, ws);
    case OpReset(ws, c) => ResetGood(s, ws, c);
    case _ => UnchangedIsGood(s);
  }

  // ----- reading and listing agree -----

  /** `read_file` finds a blob at a path exactly when `list_files` shows that path with that blob,
      and otherwise raises not-found; both show the visible tree. */
  lemma ReadAgreesWithList(s: Store, ws: string, p: Path)
    requires Inv(s) && ws in s.workspaces
    ensures match Get(Visible(s, ws), p)
      case Some(h) =>
        && h in s.blobs
        && ReadFile(s, ws, p).File?
        && ReadFile(s, ws, p).file.hash == h
        && ReadFile(s, ws, p).file.content == s.blobs[h].content
        && ReadFile(s, ws, p).file.source == (if p in StagedOf(s, ws) then FromStaging else FromHistory)
        && p in SnapshotFor(s, ws) && SnapshotFor(s, ws)[p].hash == h && SnapshotFor(s, ws)[p].size == s.blobs[h].size
      case None =>
        ReadFile(s, ws, p) == Failed(NotFound) && p !in SnapshotFor(s, ws)
  {
    var head := s.workspaces[ws].head;
    OverlayGet(TreeAt(s.commits, head), StagedOf(s, ws), p);
    ResolveIsReplay(s.commits, head, p);
    ResolvedBlobExists(s, head, p);
  }

  lemma {:induction false} ResolvedBlobExists(s: Store, c: CommitId, p: Path)
    requires Inv(s) && c in s.commits
    ensures match Resolve(s.commits, c, p) case Some(Upsert(h)) => h in s.blobs case _ => true
    decreases s.commits[c].rank
  {
    if p !in s.commits[c].changes && s.commits[c].parent.Some? {
      ResolvedBlobExists(s, s.commits[c].parent.value, p);
    }
  }

  // ----- committing -----

  /** A commit is a noop exactly when the visible tree is the head's tree. */
  lemma NoopExactlyWhenNothingVisibleChanged(s: Store, ws: string)
    requires Inv(s) && ws in s.workspaces
    ensures Effective(s, ws) == map[] <==> Visible(s, ws) == TreeAt(s.commits, s.workspaces[ws].head)
  {
    EffectiveIsTheDifference(s, ws);
    var tree := TreeAt(s.commits, s.workspaces[ws].head);
    if Effective(s, ws) == map[] {
      forall p ensures Get(Visible(s, ws), p) == Get(tree, p) { assert p !in Effective(s, ws); }
      SameLookupsSameTree(Visible(s, ws), tree);
    }
  }

  /** The effective rows are exactly the paths where the visible tree differs from the head's, and
      they alone turn the one into the other. */
  lemma EffectiveIsTheDifference(s: Store, ws: string)
    requires Inv(s) && ws in s.workspaces
    ensures var tree := TreeAt(s.commits, s.workspaces[ws].head);
      && (forall p :: p in Effective(s, ws) <==> Get(Visible(s, ws), p) != Get(tree, p))
      && Overlay(tree, Effective(s, ws)) == Visible(s, ws)
  {
    var tree := TreeAt(s.commits, s.workspaces[ws].head);
    forall p
      ensures p in Effective(s, ws) <==> Get(Visible(s, ws), p) != Get(tree, p)
      ensures Get(Overlay(tree, Effective(s, ws)), p) == Get(Visible(s, ws), p)
    {
      OverlayGet(tree, StagedOf(s, ws), p);
      OverlayGet(tree, Effective(s, ws), p);
    }
    SameLookupsSameTree(Overlay(tree, Effective(s, ws)), Visible(s, ws));
  }

  lemma AfterCommitShape(s: Store, ws: string, id: CommitId)
    requires Inv(s) && ws in s.workspaces
    ensures var t := AfterCommit(s, ws, id);
      && t.commits == Append(s.commits, id, s.workspaces[ws].head, Effective(s, ws))
      && t.commits[id].changes == Effective(s, ws)
      && t.workspaces[ws].head == id && StagedOf(t, ws) == map[]
  {
  }

  /** After a successful commit the workspace shows what it showed, now all of it committed: its
      head is the new commit, whose changes are exactly the paths where the visible tree differed
      from the old head's, and nothing stays staged. */
  lemma CommitRecordsTheDifference(s: Store, ws: string, id: CommitId)
    requires Inv(s) && ws in s.workspaces && id !in s.commits
    ensures var t := AfterCommit(s, ws, id);
      && Inv(t)
      && t.workspaces[ws].head == id && StagedOf(t, ws) == map[]
      && TreeAt(t.commits, id) == Visible(s, ws) == Visible(t, ws)
      && (forall p :: p in t.commits[id].changes <==>
            Get(Visible(s, ws), p) != Get(TreeAt(s.commits, s.workspaces[ws].head), p))
  {
    AfterCommitGood(s, ws, id);
    EffectiveIsTheDifference(s, ws);
    AppendExtends(s.commits, id, s.workspaces[ws].head, Effective(s, ws));
    AfterCommitShape(s, ws, id);
    OverlayNothing(TreeAt(AfterCommit(s, ws, id).commits, id));
  }

  /** Whatever the outcome, a commit never changes what the workspace shows; a noop or a refusal
      leaves every table, staged rows included, as it was. */
  lemma CommitKeepsVisible(s: Store, ws: string, message: string, id: CommitId, rejected: bool)
    requires Inv(s) && ws in s.workspaces
    ensures var t := CommitWorkspace(s, ws, message, id, rejected).0;
      Inv(t) && ws in t.workspaces && Visible(t, ws) == Visible(s, ws)
    ensures !CommitReply(s, ws, message, id, rejected).Committed? ==>
      CommitWorkspace(s, ws, message, id, rejected).0 == s
  {
    CommitGood(s, ws, message, id, rejected);
    if CommitReply(s, ws, message, id, rejected).Committed? {
      CommitRecordsTheDifference(s, ws, id);
    }
  }
}
