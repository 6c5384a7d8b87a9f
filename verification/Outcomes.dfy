/** When an operation succeeds, is refused or has nothing to do, and what can be seen after it, told by
    the trees that workspaces and commits show. */
module Outcomes {
  import opened Wrappers
  import opened History
  import opened Workspaces
  import opened Runs
  import opened Merging

  /** The tree of a workspace's head. */
  ghost function HeadTree(s: Store, ws: string): Tree
    requires Inv(s) && ws in s.workspaces
  {
    HeadsExist(s, ws);
    TreeAt(s.commits, s.workspaces[ws].head)
  }

  /** An operation that is refused, that only reads or that has nothing to do leaves every table as it
      was. */
  lemma OnlySuccessChanges(s: Store, op: Op)
    requires Inv(s)
    ensures var (t, reply) := Step(s, op); !reply.Done? && !reply.Committed? ==> t == s
  {
    hide Inv, ReadFile, ReadFileAt, ListFiles, TreeWorkspace, AfterCommit, AfterMerge, Effective, SourceDelta;
  }

  // ----- reading at a commit -----

  /** `read_file_at` finds exactly what the commit's tree holds. */
  lemma HistoricalReadFinds(s: Store, ws: string, p: Path, c: CommitId)
    requires Inv(s) && ws in s.workspaces && c in s.commits
    ensures match Get(TreeAt(s.commits, c), p)
      case Some(h) =>
        h in s.blobs && ReadFileAt(s, ws, p, c) == File(FileView(ws, p, s.blobs[h].content, h, FromCommit(c), c))
      case None => ReadFileAt(s, ws, p, c) == Failed(NotFound)
  {
    ResolveIsReplay(s.commits, c, p);
    ResolvedBlobExists(s, c, p);
    hide Inv, TreeAt, Resolve;
  }

  /** Two reads that find the same content, or both find nothing. */
  predicate SameFile(a: Reply, b: Reply) {
    match a
    case File(f) => b.File? && b.file.content == f.content && b.file.hash == f.hash
    case _ => a == Failed(NotFound) && b == a
  }

  lemma CommitShows(s: Store, ws: string, message: string, id: CommitId, rejected: bool)
    requires Inv(s) && Step(s, OpCommit(ws, message, id, rejected)).1.Committed?
    ensures var t := Step(s, OpCommit(ws, message, id, rejected)).0;
      && Good(s, t)
      && ws in s.workspaces && ws in t.workspaces && id !in s.commits && id in t.commits
      && t.workspaces[ws].head == id
      && TreeAt(t.commits, id) == Visible(s, ws) == Visible(t, ws)
      && t.commits[id].parent == Some(s.workspaces[ws].head)
      && TreeAt(t.commits, s.workspaces[ws].head) == HeadTree(s, ws)
  {
    CommitTables(s, ws, message, id, rejected);
    hide *;
    CommitRecordsTheDifference(s, ws, id);
    AfterCommitGood(s, ws, id);
    AfterCommitShape(s, ws, id);
    var t := AfterCommit(s, ws, id);
    GoodMeans(s, t);
    HeadTreeIs(s, ws);
    KeptTree(s, t, s.workspaces[ws].head);
    ParentOf(s.commits, id, s.workspaces[ws].head, Effective(s, ws));
  }

  lemma ParentOf(g: Graph, id: CommitId, parent: CommitId, changes: Changes)
    ensures id in Append(g, id, parent, changes) && Append(g, id, parent, changes)[id].parent == Some(parent)
  {
  }

  lemma CommitTables(s: Store, ws: string, message: string, id: CommitId, rejected: bool)
    requires Inv(s) && Step(s, OpCommit(ws, message, id, rejected)).1.Committed?
    ensures ws in s.workspaces && id !in s.commits
    ensures var t := Step(s, OpCommit(ws, message, id, rejected)).0; t == AfterCommit(s, ws, id) && ws in t.workspaces
  {
    hide Inv, Effective, Blank;
  }

  lemma SameTreeSameFile(s: Store, ws: string, t: Store, reader: string, p: Path, c: CommitId)
    requires Inv(s) && Inv(t) && Keeps(s, t) && ws in s.workspaces && reader in t.workspaces && c in t.commits
    requires TreeAt(t.commits, c) == Visible(s, ws)
    ensures SameFile(ReadFile(s, ws, p), ReadFileAt(t, reader, p, c))
  {
    ReadAgreesWithList(s, ws, p);
    HistoricalReadFinds(t, reader, p, c);
    hide Inv, ReadFile, ReadFileAt, Visible, TreeAt, SnapshotFor;
  }

  /** What a workspace showed when it was committed is what the commit shows to any reader after every
      later run. */
  lemma CommittedStaysReadable(s: Store, ws: string, message: string, id: CommitId, rejected: bool, ops: seq<Op>,
                               reader: string, p: Path)
    requires Inv(s) && Step(s, OpCommit(ws, message, id, rejected)).1.Committed?
    ensures var t := Step(s, OpCommit(ws, message, id, rejected)).0;
      && Inv(t) && Inv(Run(t, ops).0)
      && (reader in Run(t, ops).0.workspaces ==>
            SameFile(ReadFile(s, ws, p), ReadFileAt(Run(t, ops).0, reader, p, id)))
  {
    hide *;
    CommitShows(s, ws, message, id, rejected);
    var t := Step(s, OpCommit(ws, message, id, rejected)).0;
    GoodMeans(s, t);
    RunGood(t, ops);
    var u := Run(t, ops).0;
    GoodMeans(t, u);
    KeptTree(t, u, id);
    KeepsTransitive(s, t, u);
    if reader in u.workspaces { SameTreeSameFile(s, ws, u, reader, p, id); }
  }

  lemma GoodMeans(s: Store, t: Store)
    requires Good(s, t)
    ensures Inv(t) && Keeps(s, t)
  {
  }

  lemma KeptTree(s: Store, t: Store, c: CommitId)
    requires Inv(s) && Inv(t) && Keeps(s, t) && c in s.commits
    ensures WellFormed(s.commits) && WellFormed(t.commits) && c in t.commits && t.commits[c] == s.commits[c]
    ensures TreeAt(t.commits, c) == TreeAt(s.commits, c)
  {
    ExtensionKeepsCommit(s.commits, t.commits, c);
  }

  // ----- committing -----

  /** A commit answers noop exactly when its message is not blank and the workspace shows its head's
      tree; nothing at all changes then, staged rows included. */
  lemma CommitIsNoopExactly(s: Store, ws: string, message: string, id: CommitId, rejected: bool)
    requires Inv(s)
    ensures var (t, reply) := Step(s, OpCommit(ws, message, id, rejected));
      && (reply.Noop? <==> !Blank(message) && ws in s.workspaces && Visible(s, ws) == HeadTree(s, ws))
      && (reply.Noop? ==> t == s && reply.head == s.workspaces[ws].head)
  {
    CommitNoops(s, ws, message, id, rejected);
    hide *;
    if ws in s.workspaces {
      HeadTreeIs(s, ws);
      NoopExactlyWhenNothingVisibleChanged(s, ws);
    }
  }

  lemma CommitNoops(s: Store, ws: string, message: string, id: CommitId, rejected: bool)
    requires Inv(s)
    ensures ws in s.workspaces ==> WellFormed(s.commits) && s.workspaces[ws].head in s.commits
    ensures var (t, reply) := Step(s, OpCommit(ws, message, id, rejected));
      && (reply.Noop? <==> !Blank(message) && ws in s.workspaces && Effective(s, ws) == map[])
      && (reply.Noop? ==> t == s && reply.head == s.workspaces[ws].head)
  {
    if ws in s.workspaces { HeadsExist(s, ws); }
    hide Inv, Effective, Blank, AfterCommit;
  }

  /** A commit succeeds exactly when its message is not blank, the workspace shows something else than
      its head's tree, no hook rejects it and its id is new; it then names the paths that differ. */
  lemma CommitSucceedsExactly(s: Store, ws: string, message: string, id: CommitId, rejected: bool)
    requires Inv(s)
    ensures var (t, reply) := Step(s, OpCommit(ws, message, id, rejected));
      && (reply.Committed? <==>
            && !Blank(message) && ws in s.workspaces && Visible(s, ws) != HeadTree(s, ws)
            && !rejected && id !in s.commits)
      && (reply.Committed? ==>
            && reply.commit == id
            && forall p :: p in reply.paths <==> Get(Visible(s, ws), p) != Get(HeadTree(s, ws), p))
  {
    if ws in s.workspaces {
      HeadsExist(s, ws);
      NoopExactlyWhenNothingVisibleChanged(s, ws);
      EffectiveIsTheDifference(s, ws);
    }
    hide Inv, Visible, Effective, TreeAt, Blank, AfterCommit;
  }

  /** A commit answers with a commit, a noop or a failure. */
  lemma CommitAnswers(s: Store, ws: string, message: string, id: CommitId, rejected: bool)
    requires Inv(s)
    ensures var reply := Step(s, OpCommit(ws, message, id, rejected)).1;
      reply.Committed? || reply.Noop? || reply.Failed?
  {
    hide Inv, Effective, Blank, AfterCommit;
  }

  /** Once committed there is nothing to commit. */
  lemma SecondCommitIsNoop(s: Store, ws: string, message: string, id: CommitId, rejected: bool,
                           again: string, other: CommitId, rejectedAgain: bool)
    requires Inv(s) && Step(s, OpCommit(ws, message, id, rejected)).1.Committed? && !Blank(again)
    ensures var t := Step(s, OpCommit(ws, message, id, rejected)).0;
      Inv(t) && Step(t, OpCommit(ws, again, other, rejectedAgain)) == (t, Noop(id))
  {
    hide *;
    CommitShows(s, ws, message, id, rejected);
    var t := Step(s, OpCommit(ws, message, id, rejected)).0;
    GoodMeans(s, t);
    HeadTreeIs(t, ws);
    CommitIsNoopExactly(t, ws, again, other, rejectedAgain);
  }

  lemma HeadTreeIs(s: Store, ws: string)
    requires Inv(s) && ws in s.workspaces
    ensures WellFormed(s.commits) && s.workspaces[ws].head in s.commits
    ensures HeadTree(s, ws) == TreeAt(s.commits, s.workspaces[ws].head)
  {
    HeadsExist(s, ws);
  }

  /** A commit has a parent with another tree. */
  ghost predicate MovesOn(g: Graph, c: CommitId) {
    && WellFormed(g) && c in g && g[c].parent.Some?
    && g[c].parent.value in g
    && TreeAt(g, c) != TreeAt(g, g[c].parent.value)
  }

  lemma MovesOnIsKept(s: Store, t: Store, c: CommitId)
    requires Inv(s) && Inv(t) && Keeps(s, t) && MovesOn(s.commits, c)
    ensures MovesOn(t.commits, c)
  {
    KeptTree(s, t, c);
    KeptTree(s, t, s.commits[c].parent.value);
    hide TreeAt, Inv, Keeps;
  }

  lemma CommitMovesOn(s: Store, ws: string, message: string, id: CommitId, rejected: bool)
    requires Inv(s) && Step(s, OpCommit(ws, message, id, rejected)).1.Committed?
    ensures Step(s, OpCommit(ws, message, id, rejected)).1.commit == id
    ensures MovesOn(Step(s, OpCommit(ws, message, id, rejected)).0.commits, id)
  {
    CommitShows(s, ws, message, id, rejected);
    CommitSucceedsExactly(s, ws, message, id, rejected);
    HeadsExist(s, ws);
    var t := Step(s, OpCommit(ws, message, id, rejected)).0;
    HeadsExist(t, ws);
    KeptTree(s, t, s.workspaces[ws].head);
    hide Step, TreeAt, Visible, Inv, HeadTree, Keeps, Blank;
  }

  /** Over every run: each commit that was made differs from its parent.  Empty commits are never
      made. */
  lemma {:induction false} CommitsAreNeverEmpty(s: Store, ops: seq<Op>, i: nat)
    requires Inv(s) && i < |ops| && ops[i].OpCommit?
    ensures |Run(s, ops).1| == |ops|
    ensures Run(s, ops).1[i].Committed? ==> MovesOn(Run(s, ops).0.commits, Run(s, ops).1[i].commit)
    decreases |ops|
  {
    hide Inv, Keeps, Step, MovesOn;
    var op := ops[0];
    StepGood(s, op);
    var (t, reply) := Step(s, op);
    var (u, replies) := Run(t, ops[1..]);
    RunGood(t, ops[1..]);
    OneReplyEach(t, ops[1..]);
    if i > 0 {
      CommitsAreNeverEmpty(t, ops[1..], i - 1);
    } else if reply.Committed? {
      CommitMovesOn(s, op.ws, op.message, op.id, op.rejected);
      MovesOnIsKept(t, u, reply.commit);
    }
  }

  lemma {:induction false} OneReplyEach(s: Store, ops: seq<Op>)
    requires Inv(s)
    ensures |Run(s, ops).1| == |ops|
    decreases |ops|
  {
    hide Inv, Step;
    if ops != [] {
      StepGood(s, ops[0]);
      OneReplyEach(Step(s, ops[0]).0, ops[1..]);
    }
  }

  // ----- merging -----

  /** The base of the source is behind the target, and no path that both touched since has been left
      different. */
  ghost predicate Mergeable(s: Store, source: string, target: string)
    requires Inv(s) && source in s.workspaces && target in s.workspaces
  {
    var src, tgt := s.workspaces[source], s.workspaces[target];
    && Ancestor(s.commits, src.base, tgt.head)
    && forall p :: p in SourceDelta(s, source) && p in Delta(s.commits, tgt.head, src.base) ==>
         Get(HeadTree(s, source), p) == Get(HeadTree(s, target), p)
  }

  /** A merge commits exactly when source and target are two existing workspaces, the message is not
      blank, the source has nothing staged and something to merge, the base is behind the target, no
      path is in conflict, no hook rejects it and its id is new. */
  lemma MergeCommitsExactly(s: Store, source: string, target: string, message: string, id: CommitId, rejected: bool)
    requires Inv(s)
    ensures var reply := Step(s, OpMerge(source, target, message, id, rejected)).1;
      && (reply.Committed? <==>
            && source != target && !Blank(message) && source in s.workspaces && target in s.workspaces
            && StagedOf(s, source) == map[] && SourceDelta(s, source) != map[]
            && Mergeable(s, source, target) && !rejected && id !in s.commits)
      && (reply.Committed? ==> reply == Committed(id, SourceDelta(s, source).Keys))
  {
    if source in s.workspaces && target in s.workspaces {
      HeadsExist(s, source);
      HeadsExist(s, target);
      if Ancestor(s.commits, s.workspaces[source].base, s.workspaces[target].head) { NoConflicts(s, source, target); }
    }
    hide Inv, TreeAt, Blank, AfterMerge, MergeConflicts, SourceDelta, Mergeable, Ancestor;
    MergeableMeans(s, source, target);
  }

  lemma MergeableMeans(s: Store, source: string, target: string)
    requires Inv(s)
    ensures source in s.workspaces && target in s.workspaces && Mergeable(s, source, target) ==>
      && WellFormed(s.commits) && s.workspaces[target].head in s.commits
      && Ancestor(s.commits, s.workspaces[source].base, s.workspaces[target].head)
  {
  }

  lemma NoConflicts(s: Store, source: string, target: string)
    requires Inv(s) && source in s.workspaces && target in s.workspaces
    requires Ancestor(s.commits, s.workspaces[source].base, s.workspaces[target].head)
    ensures MergeConflicts(s, source, target) == map[] <==> Mergeable(s, source, target)
  {
    var src, tgt := s.workspaces[source], s.workspaces[target];
    HeadTreeIs(s, source);
    HeadTreeIs(s, target);
    hide TreeAt, Inv, HeadTree, Ancestor;
    forall p
      ensures p in MergeConflicts(s, source, target) <==>
        && p in SourceDelta(s, source) && p in Delta(s.commits, tgt.head, src.base)
        && Get(HeadTree(s, source), p) != Get(HeadTree(s, target), p)
    {
      ConflictsExactly(s, source, target, p);
    }
    hide MergeConflicts, SourceDelta, Delta;
    if MergeConflicts(s, source, target) != map[] {
      var p :| p in MergeConflicts(s, source, target);
    }
  }

  /** A merge has nothing to do exactly when all else is in order and the source changed nothing since
      its base. */
  lemma MergeIsNoopExactly(s: Store, source: string, target: string, message: string, id: CommitId, rejected: bool)
    requires Inv(s)
    ensures var (t, reply) := Step(s, OpMerge(source, target, message, id, rejected));
      && (reply.Noop? <==>
            && source != target && !Blank(message) && source in s.workspaces && target in s.workspaces
            && StagedOf(s, source) == map[] && SourceDelta(s, source) == map[])
      && (reply.Noop? ==> t == s && reply.head == s.workspaces[target].head)
  {
    hide Inv, Blank, AfterMerge, MergeConflicts, SourceDelta, Ancestor;
  }

  /** After a merge the source shows the merge commit and nothing else, and the target shows it under
      its own staged rows: nothing staged anywhere is committed or lost. */
  lemma MergeShows(s: Store, source: string, target: string, message: string, id: CommitId, rejected: bool)
    requires Inv(s) && Step(s, OpMerge(source, target, message, id, rejected)).1.Committed?
    ensures var t := Step(s, OpMerge(source, target, message, id, rejected)).0;
      && Inv(t) && source in t.workspaces && target in t.workspaces && id in t.commits
      && t.staged == s.staged
      && Visible(t, source) == TreeAt(t.commits, id)
      && HeadTree(t, target) == TreeAt(t.commits, id)
      && Visible(t, target) == Overlay(TreeAt(t.commits, id), StagedOf(s, target))
  {
    MergedTables(s, source, target, message, id, rejected);
    var t := Step(s, OpMerge(source, target, message, id, rejected)).0;
    hide *;
    ShowsOverHead(t, source);
    ShowsOverHead(t, target);
    OverlayNothing(TreeAt(t.commits, id));
  }

  lemma MergedTables(s: Store, source: string, target: string, message: string, id: CommitId, rejected: bool)
    requires Inv(s) && Step(s, OpMerge(source, target, message, id, rejected)).1.Committed?
    ensures var t := Step(s, OpMerge(source, target, message, id, rejected)).0;
      && Inv(t) && source in t.workspaces && target in t.workspaces && id in t.commits
      && t.staged == s.staged && StagedOf(s, source) == map[]
      && StagedOf(t, source) == StagedOf(s, source) && StagedOf(t, target) == StagedOf(s, target)
      && t.workspaces[source].head == t.workspaces[target].head == id
  {
    MergeMakes(s, source, target, message, id, rejected);
    AfterMergeGood(s, source, target, id);
    AfterMergeShape(s, source, target, id);
    hide AfterMerge, Step, SourceDelta, Inv, Keeps;
  }

  lemma MergeMakes(s: Store, source: string, target: string, message: string, id: CommitId, rejected: bool)
    requires Inv(s) && Step(s, OpMerge(source, target, message, id, rejected)).1.Committed?
    ensures source in s.workspaces && target in s.workspaces && source != target && id !in s.commits
    ensures StagedOf(s, source) == map[]
    ensures Ancestor(s.commits, s.workspaces[source].base, s.workspaces[target].head)
    ensures Step(s, OpMerge(source, target, message, id, rejected)).0 == AfterMerge(s, source, target, id)
  {
    hide SourceDelta, MergeConflicts, Inv, Blank, Ancestor, AfterMerge;
    HeadsKnown(s, target);
  }

  lemma HeadsKnown(s: Store, ws: string)
    requires Inv(s)
    ensures WellFormed(s.commits) && (ws in s.workspaces ==> s.workspaces[ws].head in s.commits)
  {
    HeadsExist(s, ws);
  }

  lemma ShowsOverHead(s: Store, ws: string)
    requires Inv(s) && ws in s.workspaces
    ensures WellFormed(s.commits) && s.workspaces[ws].head in s.commits
    ensures HeadTree(s, ws) == TreeAt(s.commits, s.workspaces[ws].head)
    ensures Visible(s, ws) == Overlay(TreeAt(s.commits, s.workspaces[ws].head), StagedOf(s, ws))
  {
    HeadsExist(s, ws);
  }

  // ----- forking, snapshots and resetting -----

  /** A fork is made exactly when its name is new, not empty and not its source's, and the source
      exists.  It shows the source's head, not what is staged there, and has nothing to merge. */
  lemma ForkShowsTheHead(s: Store, name: string, from: string)
    requires Inv(s)
    ensures var (t, reply) := Step(s, OpCreate(name, from));
      && Inv(t)
      && (reply.Done? <==> name != "" && name != from && from in s.workspaces && name !in s.workspaces)
      && (reply.Done? ==>
            && name in t.workspaces && Visible(t, name) == HeadTree(t, name) == HeadTree(s, from)
            && SourceDelta(t, name) == map[] && t.workspaces[name].tracking == Some(from)
            && t.staged == s.staged && t.workspaces - {name} == s.workspaces)
  {
    CreateGood(s, name, from);
    var (t, reply) := Step(s, OpCreate(name, from));
    if reply.Done? {
      assert StagedOf(t, name) == map[] by { NoRowsWithoutWorkspace(s, name); }
      ForkedHere(s, t, name, from);
    }
    hide Inv, Keeps, HeadTree, Visible, SourceDelta;
  }

  lemma NoRowsWithoutWorkspace(s: Store, name: string)
    requires Inv(s) && name !in s.workspaces
    ensures StagedOf(s, name) == map[]
  {
  }

  lemma ForkedHere(s: Store, t: Store, name: string, from: string)
    requires Inv(s) && Inv(t) && from in s.workspaces && name in t.workspaces && t.commits == s.commits
    requires t.workspaces[name].head == t.workspaces[name].base == s.workspaces[from].head && StagedOf(t, name) == map[]
    ensures Visible(t, name) == HeadTree(t, name) == HeadTree(s, from) && SourceDelta(t, name) == map[]
  {
    ShowsOverHead(s, from);
    ShowsOverHead(t, name);
    OverlayNothing(HeadTree(s, from));
    assert SourceDelta(t, name) == map[];
    hide TreeAt, Inv, HeadTree;
  }

  /** A snapshot is taken exactly under a new name of an existing workspace.  It names the head: after
      every later run any reader finds in its commit what the workspace's head held. */
  lemma SnapshotNamesTheHead(s: Store, ws: string, name: string, ops: seq<Op>, reader: string, p: Path)
    requires Inv(s)
    ensures var (t, reply) := Step(s, OpSnapshot(ws, name));
      && Inv(t) && Inv(Run(t, ops).0)
      && (reply.Done? <==> name != "" && ws in s.workspaces && name !in s.snapshots)
      && (reply.Done? && reader in Run(t, ops).0.workspaces ==>
            var u := Run(t, ops).0;
            && name in u.snapshots && u.snapshots[name].workspace == ws
            && Finds(u, ReadFileAt(u, reader, p, u.snapshots[name].commit), Get(HeadTree(s, ws), p)))
  {
    SnapshotGood(s, ws, name);
    var (t, reply) := Step(s, OpSnapshot(ws, name));
    RunGood(t, ops);
    hide Run;
    if reply.Done? {
      HeadTreeIs(s, ws);
      assert t.snapshots[name].workspace == ws;
      assert t.snapshots[name].commit == s.workspaces[ws].head && t.commits == s.commits;
      HeadReadLater(t, s.workspaces[ws].head, Run(t, ops).0, reader, p);
    }
    hide Step, Inv, TreeAt, HeadTree, Finds, Keeps;
    if reply.Done? { SnapshotKept(t, Run(t, ops).0, name); }
  }

  lemma SnapshotKept(s: Store, t: Store, name: string)
    requires Good(s, t) && name in s.snapshots
    ensures name in t.snapshots && t.snapshots[name] == s.snapshots[name]
  {
  }

  /** A reply that is the file stored under a hash, or not-found. */
  predicate Finds(s: Store, reply: Reply, h: Option<Hash>) {
    match h
    case Some(h) =>
      h in s.blobs && reply.File? && reply.file.hash == h && reply.file.content == s.blobs[h].content
    case None => reply == Failed(NotFound)
  }

  lemma HeadReadLater(s: Store, c: CommitId, t: Store, reader: string, p: Path)
    requires Inv(s) && Good(s, t) && c in s.commits
    ensures WellFormed(s.commits) && Inv(t)
    ensures reader in t.workspaces ==> Finds(t, ReadFileAt(t, reader, p, c), Get(TreeAt(s.commits, c), p))
  {
    GoodMeans(s, t);
    KeptTree(s, t, c);
    if reader in t.workspaces { HistoricalReadFinds(t, reader, p, c); }
    hide Inv, TreeAt, Keeps, ReadFileAt;
  }

  /** A reset is done exactly to a commit on the workspace's own chain.  The workspace then shows that
      commit's tree, with nothing staged and nothing to merge, and no other workspace is moved. */
  lemma ResetShowsTheTarget(s: Store, ws: string, c: CommitId)
    requires Inv(s)
    ensures var (t, reply) := Step(s, OpReset(ws, c));
      && Inv(t) && t.commits == s.commits
      && (reply.Done? <==> ws in s.workspaces && OnChain(s, ws, c))
      && (reply.Done? ==>
            && c in s.commits && ws in t.workspaces
            && Visible(t, ws) == HeadTree(t, ws) == TreeAt(s.commits, c)
            && SourceDelta(t, ws) == map[] && StagedOf(t, ws) == map[]
            && t.workspaces - {ws} == s.workspaces - {ws} && t.staged - {ws} == s.staged - {ws})
  {
    ResetGood(s, ws, c);
    ResetTables(s, ws, c);
    var (t, reply) := Step(s, OpReset(ws, c));
    hide *;
    if reply.Done? {
      ShowsOverHead(t, ws);
      NothingSinceTheBase(t, ws);
      OverlayNothing(TreeAt(s.commits, c));
    }
  }

  lemma NothingSinceTheBase(s: Store, ws: string)
    requires Inv(s) && ws in s.workspaces && s.workspaces[ws].head == s.workspaces[ws].base
    ensures SourceDelta(s, ws) == map[]
  {
    HeadsExist(s, ws);
    hide Inv;
  }

  lemma ResetTables(s: Store, ws: string, c: CommitId)
    requires Inv(s)
    ensures var (t, reply) := Step(s, OpReset(ws, c));
      && t.commits == s.commits && Inv(t)
      && (reply.Done? <==> ws in s.workspaces && OnChain(s, ws, c))
      && (reply.Done? ==>
            && c in s.commits && ws in t.workspaces && t.workspaces[ws].head == t.workspaces[ws].base == c
            && StagedOf(t, ws) == map[]
            && t.workspaces - {ws} == s.workspaces - {ws} && t.staged - {ws} == s.staged - {ws})
  {
    ResetGood(s, ws, c);
    if ws in s.workspaces {
      OnChainIsAncestor(s, ws, c);
      ResetIs(s, ws, c);
    } else {
      ResetNowhere(s, ws, c);
    }
    hide *;
  }

  lemma ResetNowhere(s: Store, ws: string, c: CommitId)
    requires Inv(s) && ws !in s.workspaces
    ensures Step(s, OpReset(ws, c)) == (s, Failed(NotFound))
  {
  }

  lemma ResetIs(s: Store, ws: string, c: CommitId)
    requires Inv(s) && ws in s.workspaces
    ensures WellFormed(s.commits) && s.workspaces[ws].head in s.commits
    ensures var (t, reply) := Step(s, OpReset(ws, c));
      && t.commits == s.commits
      && (reply.Done? <==> c in s.commits && Ancestor(s.commits, c, s.workspaces[ws].head))
      && (reply.Done? ==>
            && ws in t.workspaces && t.workspaces[ws].head == t.workspaces[ws].base == c
            && StagedOf(t, ws) == map[]
            && t.workspaces - {ws} == s.workspaces - {ws} && t.staged - {ws} == s.staged - {ws})
  {
    HeadsExist(s, ws);
    hide Inv, Ancestor;
  }

  lemma OnChainIsAncestor(s: Store, ws: string, c: CommitId)
    requires Inv(s) && ws in s.workspaces
    ensures WellFormed(s.commits) && s.workspaces[ws].head in s.commits
    ensures OnChain(s, ws, c) <==> Ancestor(s.commits, c, s.workspaces[ws].head)
    ensures OnChain(s, ws, c) ==> c in s.commits
  {
    HeadsExist(s, ws);
    ChainListsAncestors(s.commits, c, s.workspaces[ws].head);
    if OnChain(s, ws, c) { AncestorsExist(s.commits, c, s.workspaces[ws].head); }
  }

  ghost predicate OnChain(s: Store, ws: string, c: CommitId)
    requires Inv(s) && ws in s.workspaces
  {
    HeadsExist(s, ws);
    c in Chain(s.commits, s.workspaces[ws].head)
  }

  // ----- what is refused first -----

  /** An operation whose own arguments are refused. */
  predicate IllFormed(op: Op) {
    match op
    case OpCreate(name, from) => name == "" || name == from
    case OpCommit(_, message, _, _) => Blank(message)
    case OpMerge(source, target, message, _, _) => source == target || Blank(message)
    case OpSnapshot(_, name) => name == ""
    case _ => false
  }

  /** The workspaces an operation needs to exist. */
  function Needs(op: Op): set<string> {
    match op
    case OpCreate(_, from) => {from}
    case OpMerge(source, target, _, _, _) => {source, target}
    case OpWrite(ws, _, _, _) => {ws}
    case OpDelete(ws, _) => {ws}
    case OpRead(ws, _) => {ws}
    case OpReadAt(ws, _, _) => {ws}
    case OpList(ws) => {ws}
    case OpTree(ws) => {ws}
    case OpCommit(ws, _, _, _) => {ws}
    case OpSnapshot(ws, _) => {ws}
    case OpRollback(ws) => {ws}
    case OpReset(ws, _) => {ws}
  }

  /** What an operation is given is looked at first, and then whether its workspaces exist: the first is
      refused as invalid, the second as not found, whatever else is wrong. */
  lemma ChecksComeFirst(s: Store, op: Op)
    requires Inv(s)
    ensures IllFormed(op) ==> Step(s, op) == (s, Failed(Invalid))
    ensures !IllFormed(op) && !(Needs(op) <= s.workspaces.Keys) ==> Step(s, op) == (s, Failed(NotFound))
  {
    hide Inv, Blank, Effective, SourceDelta, MergeConflicts, AfterCommit, AfterMerge, Ancestor, SnapshotFor, Resolve;
  }

  /** Staging works in every existing workspace, whatever the path. */
  lemma StagingAlwaysWorks(s: Store, ws: string, p: Path, h: Hash, content: string)
    requires Inv(s) && ws in s.workspaces
    ensures Step(s, OpWrite(ws, p, h, content)).1.Done?
    ensures Step(s, OpDelete(ws, p)).1.Done?
    ensures Step(s, OpRollback(ws)).1.Done?
    ensures Step(s, OpList(ws)).1.Files? && Step(s, OpTree(ws)).1.Tree?
  {
    hide Inv, StoreBlob, Stage, Unstage, SnapshotFor;
  }
}
