/** What holds over whole runs: any number of operations, of any kind, in any order. */
module Runs {
  import opened Wrappers
  import opened History
  import opened Workspaces
  import Merging

  /** The tables and the replies after a run. */
  function Run(s: Store, ops: seq<Op>): (Store, seq<Reply>)
    requires Inv(s)
    decreases |ops|
  {
    if ops == [] then (s, [])
    else
      StepGood(s, ops[0]);
      var (t, reply) := Step(s, ops[0]);
      var (u, replies) := Run(t, ops[1..]);
      (u, [reply] + replies)
  }

  /** In every reachable store parents precede their children, every commit and blob referred to
      exists, and each workspace's base is an ancestor of its head; nothing stored is ever lost. */
  lemma {:induction false} RunGood(s: Store, ops: seq<Op>)
    requires Inv(s)
    ensures Good(s, Run(s, ops).0)
    decreases |ops|
  {
    hide Inv, Keeps, Step;
    if ops == [] {
      UnchangedIsGood(s);
    } else {
      StepGood(s, ops[0]);
      var t := Step(s, ops[0]).0;
      RunGood(t, ops[1..]);
      KeepsTransitive(s, t, Run(s, ops).0);
    }
  }

  // ----- history is immutable -----

  lemma KeptCommitReadsTheSame(s: Store, t: Store, ws: string, c: CommitId, p: Path)
    requires Inv(s) && Inv(t) && Keeps(s, t) && ws in s.workspaces && c in s.commits
    ensures ReadFileAt(t, ws, p, c) == ReadFileAt(s, ws, p, c)
  {
    ExtensionKeepsResolve(s.commits, t.commits, c, p);
    ResolvedBlobExists(s, c, p);
  }

  /** Reading a path at a commit gives the same answer after every later run, merges and resets
      included. */
  lemma HistoryIsImmutable(s: Store, ops: seq<Op>, ws: string, c: CommitId, p: Path)
    requires Inv(s) && ws in s.workspaces && c in s.commits
    ensures Inv(Run(s, ops).0)
    ensures ReadFileAt(Run(s, ops).0, ws, p, c) == ReadFileAt(s, ws, p, c)
  {
    RunGood(s, ops);
    KeptCommitReadsTheSame(s, Run(s, ops).0, ws, c, p);
  }

  /** A named snapshot keeps its commit, and the commit keeps its tree. */
  lemma SnapshotsAreImmutable(s: Store, ops: seq<Op>, name: string)
    requires Inv(s) && name in s.snapshots
    ensures var t := Run(s, ops).0;
      && Inv(t) && name in t.snapshots && t.snapshots[name] == s.snapshots[name]
      && TreeAt(t.commits, t.snapshots[name].commit) == TreeAt(s.commits, s.snapshots[name].commit)
  {
    RunGood(s, ops);
    ExtensionKeepsCommit(s.commits, Run(s, ops).0.commits, s.snapshots[name].commit);
  }

  // ----- isolation -----

  /** The operations that may change what a workspace shows. */
  predicate Touches(op: Op, ws: string) {
    match op
    case OpCreate(name, _) => name == ws
    case OpWrite(w, _, _, _) => w == ws
    case OpDelete(w, _) => w == ws
    case OpCommit(w, _, _, _) => w == ws
    case OpMerge(source, target, _, _, _) => source == ws || target == ws
    case OpRollback(w) => w == ws
    case OpReset(w, _) => w == ws
    case _ => false
  }

  /** Two stores in which a workspace's row and staged rows are the same. */
  ghost predicate SameRows(s: Store, t: Store, ws: string) {
    Get(s.workspaces, ws) == Get(t.workspaces, ws) && StagedOf(s, ws) == StagedOf(t, ws)
  }

  lemma MergeLeavesOthersRows(s: Store, source: string, target: string, message: string, id: CommitId, rejected: bool,
                              ws: string)
    requires Inv(s) && ws != source && ws != target
    ensures SameRows(s, MergeWorkspace(s, source, target, message, id, rejected).0, ws)
  {
    if MergeReply(s, source, target, message, id, rejected).Committed? {
      Merging.AfterMergeShape(s, source, target, id);
    }
  }

  lemma CommitLeavesOthersRows(s: Store, w: string, message: string, id: CommitId, rejected: bool, ws: string)
    requires Inv(s) && ws != w
    ensures SameRows(s, CommitWorkspace(s, w, message, id, rejected).0, ws)
  {
  }

  lemma StepLeavesOthersRows(s: Store, op: Op, ws: string)
    requires Inv(s) && !Touches(op, ws)
    ensures SameRows(s, Step(s, op).0, ws)
  {
    hide MergeWorkspace, CommitWorkspace, ReadFile, ReadFileAt, ListFiles, TreeWorkspace, Inv, Ancestor, ByteSize;
    match op
    case OpMerge(source, target, message, id, rejected) =>
      MergeLeavesOthersRows(s, source, target, message, id, rejected, ws);
    case OpCommit(w, message, id, rejected) => CommitLeavesOthersRows(s, w, message, id, rejected, ws);
    case _ =>
  }

  lemma SameTreeSameSnapshot(s: Store, t: Store, ws: string)
    requires Inv(s) && Inv(t) && Keeps(s, t) && SameRows(s, t, ws) && ws in s.workspaces && ws in t.workspaces
    requires Visible(t, ws) == Visible(s, ws)
    ensures SnapshotFor(t, ws) == SnapshotFor(s, ws)
  {
    hide Visible;
    forall p | p in Visible(s, ws) ensures SizeOf(t, Visible(s, ws)[p]) == SizeOf(s, Visible(s, ws)[p]) {
      ReadAgreesWithList(s, ws, p);
    }
  }

  /** What a workspace shows depends on its own rows and on stored history alone. */
  lemma SameRowsShowTheSame(s: Store, t: Store, ws: string)
    requires Inv(s) && Inv(t) && Keeps(s, t) && SameRows(s, t, ws)
    ensures ListFiles(t, ws) == ListFiles(s, ws) && TreeWorkspace(t, ws) == TreeWorkspace(s, ws)
  {
    assert ws in s.workspaces <==> ws in t.workspaces by { assert Get(s.workspaces, ws) == Get(t.workspaces, ws); }
    if ws in s.workspaces {
      ExtensionKeepsCommit(s.commits, t.commits, s.workspaces[ws].head);
      SameTreeSameSnapshot(s, t, ws);
    }
  }

  lemma SameRowsReadTheSame(s: Store, t: Store, ws: string, p: Path)
    requires Inv(s) && Inv(t) && Keeps(s, t) && SameRows(s, t, ws)
    ensures ReadFile(t, ws, p) == ReadFile(s, ws, p)
  {
    assert ws in s.workspaces <==> ws in t.workspaces by { assert Get(s.workspaces, ws) == Get(t.workspaces, ws); }
    if ws in s.workspaces {
      ExtensionKeepsResolve(s.commits, t.commits, s.workspaces[ws].head, p);
      ResolvedBlobExists(s, s.workspaces[ws].head, p);
    }
  }

  lemma {:induction false} RunLeavesOthersRows(s: Store, ops: seq<Op>, ws: string)
    requires Inv(s) && forall i :: 0 <= i < |ops| ==> !Touches(ops[i], ws)
    ensures SameRows(s, Run(s, ops).0, ws)
    decreases |ops|
  {
    hide Inv, Step, Keeps;
    if ops != [] {
      StepGood(s, ops[0]);
      StepLeavesOthersRows(s, ops[0], ws);
      RunLeavesOthersRows(Step(s, ops[0]).0, ops[1..], ws);
    }
  }

  /** What a workspace reads and lists is changed only by operations that name it: over a run with
      none of them it stays the same, whatever is written, committed, merged or reset elsewhere. */
  lemma WorkspacesAreIsolated(s: Store, ops: seq<Op>, ws: string, p: Path)
    requires Inv(s) && forall i :: 0 <= i < |ops| ==> !Touches(ops[i], ws)
    ensures var t := Run(s, ops).0;
      && Inv(t)
      && ReadFile(t, ws, p) == ReadFile(s, ws, p)
      && ListFiles(t, ws) == ListFiles(s, ws)
      && TreeWorkspace(t, ws) == TreeWorkspace(s, ws)
  {
    RunGood(s, ops);
    RunLeavesOthersRows(s, ops, ws);
    SameRowsShowTheSame(s, Run(s, ops).0, ws);
    SameRowsReadTheSame(s, Run(s, ops).0, ws, p);
  }

  // ----- bases stay on main's chain -----

  /** Every workspace's base is on the chain of `main`. */
  ghost predicate OnMain(s: Store)
    requires Inv(s)
  {
    forall ws :: ws in s.workspaces ==> Ancestor(s.commits, s.workspaces[ws].base, s.workspaces[MAIN].head)
  }

  /** Forks are taken from `main`, merges go into `main`, and nothing is reset. */
  predicate MainOnly(op: Op) {
    match op
    case OpCreate(_, from) => from == MAIN
    case OpMerge(_, target, _, _, _) => target == MAIN
    case OpReset(_, _) => false
    case _ => true
  }

  lemma CommitKeepsOnMain(s: Store, ws: string, id: CommitId)
    requires Inv(s) && OnMain(s) && ws in s.workspaces && id !in s.commits
    ensures Inv(AfterCommit(s, ws, id)) && OnMain(AfterCommit(s, ws, id))
  {
    var t := AfterCommit(s, ws, id);
    var row := s.workspaces[ws];
    AfterCommitGood(s, ws, id);
    AppendExtends(s.commits, id, row.head, Effective(s, ws));
    ExtensionKeepsCommit(s.commits, t.commits, s.workspaces[MAIN].head);
    forall w | w in t.workspaces ensures Ancestor(t.commits, t.workspaces[w].base, t.workspaces[MAIN].head) {
      hide Effective, HistoryStored, StagingInOrder, Ranked;
      assert Ancestor(s.commits, s.workspaces[w].base, s.workspaces[MAIN].head);
    }
  }

  lemma MergeKeepsOnMain(s: Store, source: string, id: CommitId)
    requires Inv(s) && OnMain(s) && source in s.workspaces && source != MAIN && id !in s.commits
    ensures Inv(AfterMerge(s, source, MAIN, id)) && OnMain(AfterMerge(s, source, MAIN, id))
  {
    var t := AfterMerge(s, source, MAIN, id);
    AfterMergeGood(s, source, MAIN, id);
    AppendExtends(s.commits, id, s.workspaces[MAIN].head, SourceDelta(s, source));
    forall w | w in t.workspaces ensures Ancestor(t.commits, t.workspaces[w].base, t.workspaces[MAIN].head) {
      hide Delta, HistoryStored, StagingInOrder, Ranked;
      assert Ancestor(s.commits, s.workspaces[w].base, s.workspaces[MAIN].head);
    }
  }

  /** Under the discipline no step strands a base, and no merge finds one stranded. */
  lemma MainOnlyStep(s: Store, op: Op)
    requires Inv(s) && OnMain(s) && MainOnly(op)
    ensures Inv(Step(s, op).0) && OnMain(Step(s, op).0)
    ensures Step(s, op).1 != Failed(NotAnAncestor)
  {
    hide Inv, OnMain;
    match op
    case OpCommit(ws, message, id, rejected) => CommitOnMainStep(s, ws, message, id, rejected);
    case OpMerge(source, target, message, id, rejected) => MergeIntoMainStep(s, source, message, id, rejected);
    case OpCreate(name, from) => ForkFromMainStep(s, name);
    case _ => OtherStepKeepsOnMain(s, op);
  }

  lemma CommitOnMainStep(s: Store, ws: string, message: string, id: CommitId, rejected: bool)
    requires Inv(s) && OnMain(s)
    ensures var (t, reply) := CommitWorkspace(s, ws, message, id, rejected);
      Inv(t) && OnMain(t) && reply != Failed(NotAnAncestor)
  {
    if CommitReply(s, ws, message, id, rejected).Committed? { CommitKeepsOnMain(s, ws, id); }
  }

  lemma ForkFromMainStep(s: Store, name: string)
    requires Inv(s) && OnMain(s)
    ensures var (t, reply) := CreateWorkspace(s, name, MAIN);
      Inv(t) && OnMain(t) && reply != Failed(NotAnAncestor)
  {
    CreateGood(s, name, MAIN);
  }

  lemma OtherStepKeepsOnMain(s: Store, op: Op)
    requires Inv(s) && OnMain(s) && !op.OpCommit? && !op.OpMerge? && !op.OpReset? && !op.OpCreate?
    ensures Inv(Step(s, op).0) && OnMain(Step(s, op).0) && Step(s, op).1 != Failed(NotAnAncestor)
  {
    StepGood(s, op);
    OtherStepKeepsRows(s, op);
    hide Step;
  }

  lemma MergeIntoMainStep(s: Store, source: string, message: string, id: CommitId, rejected: bool)
    requires Inv(s) && OnMain(s)
    ensures var (t, reply) := MergeWorkspace(s, source, MAIN, message, id, rejected);
      Inv(t) && OnMain(t) && reply != Failed(NotAnAncestor)
  {
    if MergeReply(s, source, MAIN, message, id, rejected).Committed? { MergeKeepsOnMain(s, source, id); }
  }

  lemma OtherStepKeepsRows(s: Store, op: Op)
    requires Inv(s) && !op.OpCommit? && !op.OpMerge? && !op.OpReset? && !op.OpCreate?
    ensures Step(s, op).0.workspaces == s.workspaces && Step(s, op).0.commits == s.commits
    ensures Step(s, op).1 != Failed(NotAnAncestor)
  {
    hide WellFormed, RowsInOrder, HistoryStored, StagingInOrder, SnapshotsInOrder;
  }

  lemma {:induction false} MainOnlyRunFrom(s: Store, ops: seq<Op>)
    requires Inv(s) && OnMain(s) && forall i :: 0 <= i < |ops| ==> MainOnly(ops[i])
    ensures forall r :: r in Run(s, ops).1 ==> r != Failed(NotAnAncestor)
    ensures Inv(Run(s, ops).0) && OnMain(Run(s, ops).0)
    decreases |ops|
  {
    hide Inv, OnMain, Step;
    if ops != [] {
      MainOnlyStep(s, ops[0]);
      MainOnlyRunFrom(Step(s, ops[0]).0, ops[1..]);
    }
  }

  /** From a fresh database, a run that forks only from `main`, merges only into `main` and resets
      nothing never fails with "not an ancestor". */
  lemma DisciplinedRunsNeverStrandABase(root: CommitId, ops: seq<Op>)
    requires forall i :: 0 <= i < |ops| ==> MainOnly(ops[i])
    ensures forall r :: r in Run(Initial(root), ops).1 ==> r != Failed(NotAnAncestor)
  {
    MainOnlyRunFrom(Initial(root), ops);
  }
}
