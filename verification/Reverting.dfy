/** Changing a file and changing it back: a run after which a merge refuses a path on which only one
    side has moved. */
module Reverting {
  import opened Wrappers
  import opened History
  import opened Workspaces
  import opened Runs

  /** What a file is changed to, and the commit that changes it. */
  datatype Version = Version(hash: Hash, content: string, commit: CommitId)

  /** Write one file and commit it. */
  function Edit(ws: string, p: Path, v: Version, message: string): seq<Op> {
    [OpWrite(ws, p, v.hash, v.content), OpCommit(ws, message, v.commit, false)]
  }

  lemma {:induction false} RunInParts(s: Store, xs: seq<Op>, ys: seq<Op>)
    requires Inv(s)
    ensures Inv(Run(s, xs).0)
    ensures Run(s, xs + ys) == (Run(Run(s, xs).0, ys).0, Run(s, xs).1 + Run(Run(s, xs).0, ys).1)
    decreases |xs|
  {
    hide Inv, Step;
    if xs == [] {
      assert xs + ys == ys;
      assert Run(s, xs) == (s, []);
      assert [] + Run(s, ys).1 == Run(s, ys).1;
    } else {
      StepGood(s, xs[0]);
      var (t, reply) := Step(s, xs[0]);
      assert (xs + ys)[0] == xs[0] && (xs + ys)[1..] == xs[1..] + ys;
      RunInParts(t, xs[1..], ys);
      var (u, replies) := Run(t, xs[1..]);
      assert Run(s, xs) == (u, [reply] + replies);
      assert [reply] + (replies + Run(u, ys).1) == ([reply] + replies) + Run(u, ys).1;
    }
  }

  /** A workspace with nothing staged whose head is `delta` away from `base`, where `p` holds `value`. */
  ghost predicate Stands(s: Store, ws: string, base: CommitId, delta: Changes, p: Path, value: Option<Hash>) {
    && Inv(s)
    && ws in s.workspaces && StagedOf(s, ws) == map[]
    && (ws != MAIN ==> s.workspaces[ws].base == base)
    && Ancestor(s.commits, base, s.workspaces[ws].head)
    && Delta(s.commits, s.workspaces[ws].head, base) == delta
    && Get(TreeAt(s.commits, s.workspaces[ws].head), p) == value
  }

  lemma AppendedDelta(g: Graph, id: CommitId, parent: CommitId, changes: Changes, base: CommitId)
    requires WellFormed(g) && Ranked(g) && parent in g && id !in g && Ancestor(g, base, parent)
    ensures var h := Append(g, id, parent, changes);
      && WellFormed(h) && Ancestor(h, base, id)
      && Delta(h, id, base) == Delta(g, parent, base) + changes
  {
    var h := Append(g, id, parent, changes);
    AppendExtends(g, id, parent, changes);
    ExtensionKeepsDelta(g, h, parent, base);
    AncestorsExist(g, base, parent);
  }

  lemma BlobsAlone(s: Store, h: Hash, content: string)
    ensures StoreBlob(s, h, content) == s.(blobs := StoreBlob(s, h, content).blobs)
  {
  }

  lemma WriteRows(s: Store, ws: string, p: Path, h: Hash, content: string)
    requires Inv(s) && ws in s.workspaces && StagedOf(s, ws) == map[]
    ensures var t := WriteFile(s, ws, p, h, content).0;
      && Good(s, t)
      && t.commits == s.commits && t.workspaces == s.workspaces && t.snapshots == s.snapshots
      && StagedOf(t, ws) == map[p := Upsert(h)] && t.staged - {ws} == s.staged - {ws}
      && Inv(t)
  {
    WriteGood(s, ws, p, h, content);
    hide Inv, Keeps, ByteSize, StoreBlob;
    assert StoreBlob(s, h, content) == s.(blobs := StoreBlob(s, h, content).blobs) by { BlobsAlone(s, h, content); }
  }

  lemma CommitRows(s: Store, ws: string, message: string, id: CommitId, changes: Changes)
    requires Inv(s) && ws in s.workspaces && id !in s.commits && !Blank(message)
    requires Effective(s, ws) == changes != map[]
    ensures var t := CommitWorkspace(s, ws, message, id, false).0;
      var row := s.workspaces[ws];
      && Good(s, t)
      && t.commits == Append(s.commits, id, row.head, changes)
      && t.workspaces == s.workspaces[ws := row.(head := id, base := if row.tracking.None? then id else row.base)]
      && t.staged == s.staged - {ws}
  {
    AfterCommitGood(s, ws, id);
    hide Inv, Effective, Keeps, Blank;
  }

  lemma OneRowEffective(s: Store, ws: string, p: Path, h: Hash)
    requires Inv(s) && ws in s.workspaces && StagedOf(s, ws) == map[p := Upsert(h)]
    requires Get(TreeAt(s.commits, s.workspaces[ws].head), p) != Some(h)
    ensures Effective(s, ws) == map[p := Upsert(h)]
  {
    HeadsExist(s, ws);
    hide Inv, TreeAt;
  }

  lemma OneStep(s: Store, op: Op)
    requires Inv(s)
    ensures Run(s, [op]) == (Step(s, op).0, [Step(s, op).1])
  {
    StepGood(s, op);
    var t := Step(s, op).0;
    assert Run(t, []) == (t, []);
    assert [op][1..] == [];
    assert [Step(s, op).1] + [] == [Step(s, op).1];
    hide Inv, Step;
  }

  lemma TwoSteps(s: Store, first: Op, second: Op)
    requires Inv(s)
    ensures Inv(Step(s, first).0)
    ensures Run(s, [first, second]).0 == Step(Step(s, first).0, second).0
  {
    StepGood(s, first);
    var t := Step(s, first).0;
    StepGood(t, second);
    assert [first, second][1..] == [second];
    assert Run(t, [second]).0 == Step(t, second).0;
    hide Inv, Step;
  }

  /** What an edit does to the tables. */
  lemma EditRows(s: Store, ws: string, p: Path, v: Version, message: string)
    requires Inv(s) && ws in s.workspaces && StagedOf(s, ws) == map[] && v.commit !in s.commits && !Blank(message)
    requires Get(TreeAt(s.commits, s.workspaces[ws].head), p) != Some(v.hash)
    ensures var t := Run(s, Edit(ws, p, v, message)).0;
      var row := s.workspaces[ws];
      && Good(s, t)
      && t.commits == Append(s.commits, v.commit, row.head, map[p := Upsert(v.hash)])
      && t.workspaces
           == s.workspaces[ws := row.(head := v.commit, base := if row.tracking.None? then v.commit else row.base)]
      && t.staged == s.staged - {ws}
  {
    HeadsExist(s, ws);
    var u := WriteFile(s, ws, p, v.hash, v.content).0;
    EditIsTwoSteps(s, ws, p, v, message);
    hide *;
    WriteRows(s, ws, p, v.hash, v.content);
    OneRowEffective(u, ws, p, v.hash);
    CommitRows(u, ws, message, v.commit, map[p := Upsert(v.hash)]);
    GoodTransitive(s, u, CommitWorkspace(u, ws, message, v.commit, false).0);
  }

  lemma GoodTransitive(s: Store, t: Store, u: Store)
    requires Good(s, t) && Good(t, u)
    ensures Good(s, u)
  {
    KeepsTransitive(s, t, u);
    hide Inv;
  }

  lemma EditIsTwoSteps(s: Store, ws: string, p: Path, v: Version, message: string)
    requires Inv(s)
    ensures var u := WriteFile(s, ws, p, v.hash, v.content).0;
      Inv(u) && Run(s, Edit(ws, p, v, message)).0 == CommitWorkspace(u, ws, message, v.commit, false).0
  {
    TwoSteps(s, OpWrite(ws, p, v.hash, v.content), OpCommit(ws, message, v.commit, false));
    hide Inv, CommitWorkspace, WriteFile, Run;
  }

  lemma AppendedStand(g: Graph, id: CommitId, parent: CommitId, p: Path, h: Hash, base: CommitId)
    requires WellFormed(g) && Ranked(g) && parent in g && id !in g && Ancestor(g, base, parent)
    ensures var t := Append(g, id, parent, map[p := Upsert(h)]);
      && WellFormed(t) && Ancestor(t, base, id) && t.Keys == g.Keys + {id}
      && Delta(t, id, base) == Delta(g, parent, base) + map[p := Upsert(h)]
      && Get(TreeAt(t, id), p) == Some(h)
  {
    AppendedDelta(g, id, parent, map[p := Upsert(h)], base);
    AppendExtends(g, id, parent, map[p := Upsert(h)]);
    OverlayGet(TreeAt(g, parent), map[p := Upsert(h)], p);
    hide TreeAt, Delta, Ancestor, WellFormed, Ranked;
  }

  /** An edit moves its workspace one change further from the base. */
  lemma EditMoves(s: Store, ws: string, base: CommitId, delta: Changes, p: Path, value: Option<Hash>,
                  v: Version, message: string)
    requires Stands(s, ws, base, delta, p, value) && value != Some(v.hash) && v.commit !in s.commits && !Blank(message)
    ensures var t := Run(s, Edit(ws, p, v, message)).0;
      && Stands(t, ws, base, delta + map[p := Upsert(v.hash)], p, Some(v.hash))
      && t.commits.Keys == s.commits.Keys + {v.commit}
  {
    EditRows(s, ws, p, v, message);
    HeadsExist(s, ws);
    AppendedStand(s.commits, v.commit, s.workspaces[ws].head, p, v.hash, base);
    hide Run, Edit, TreeAt, Delta, Ancestor, Keeps, Blank, WellFormed, Ranked, HistoryStored, StagingInOrder;
    hide SnapshotsInOrder, RowsInOrder, Append, Get;
  }

  /** No other workspace is moved by it. */
  lemma EditLeavesOthers(s: Store, ws: string, p: Path, v: Version, message: string,
                         other: string, base: CommitId, delta: Changes, q: Path, value: Option<Hash>)
    requires Inv(s) && ws in s.workspaces && StagedOf(s, ws) == map[] && v.commit !in s.commits && !Blank(message)
    requires Get(TreeAt(s.commits, s.workspaces[ws].head), p) != Some(v.hash)
    requires Stands(s, other, base, delta, q, value) && other != ws
    ensures Stands(Run(s, Edit(ws, p, v, message)).0, other, base, delta, q, value)
  {
    EditRows(s, ws, p, v, message);
    var t := Run(s, Edit(ws, p, v, message)).0;
    ExtensionKeepsDelta(s.commits, t.commits, s.workspaces[other].head, base);
    ExtensionKeepsCommit(s.commits, t.commits, s.workspaces[other].head);
    hide Run, Edit, TreeAt, Delta, Ancestor, Blank, Ranked, HistoryStored, StagingInOrder, RowInOrder, WellFormed;
  }

  /** Change a file in a workspace, change it back, and change it once in `main`. */
  function RevertOps(work: string, p: Path, away: Version, back: Version, other: Version, message: string): seq<Op> {
    Edit(work, p, away, message) + (Edit(work, p, back, message) + Edit(MAIN, p, other, message))
  }

  predicate Fresh(s: Store, away: Version, back: Version, other: Version) {
    && away.commit !in s.commits && back.commit !in s.commits && other.commit !in s.commits
    && away.commit != back.commit && back.commit != other.commit && away.commit != other.commit
  }

  lemma RevertMoves(s: Store, work: string, base: CommitId, p: Path,
                    away: Version, back: Version, other: Version, message: string)
    requires Stands(s, work, base, map[], p, Some(back.hash)) && Stands(s, MAIN, base, map[], p, Some(back.hash))
    requires work != MAIN && away.hash != back.hash && other.hash != back.hash && !Blank(message)
    requires Fresh(s, away, back, other)
    ensures var t := Run(s, RevertOps(work, p, away, back, other, message)).0;
      && Stands(t, work, base, map[p := Upsert(back.hash)], p, Some(back.hash))
      && Stands(t, MAIN, base, map[p := Upsert(other.hash)], p, Some(other.hash))
  {
    var first, second := Edit(work, p, away, message), Edit(work, p, back, message);
    var third := Edit(MAIN, p, other, message);
    var changed := map[p := Upsert(away.hash)];
    hide Edit, Blank, Run, Stands, Inv;
    var s1 := BothAfterWork(s, work, base, map[], p, Some(back.hash), away, message, Some(back.hash));
    var s2 := BothAfterWork(s1, work, base, changed, p, Some(away.hash), back, message, Some(back.hash));
    StandsMeans(s2, MAIN, base, map[], p, Some(back.hash));
    EditMoves(s2, MAIN, base, map[], p, Some(back.hash), other, message);
    LaterWins(map[], p, Upsert(other.hash));
    EditLeavesOthers(s2, MAIN, p, other, message, work, base, map[p := Upsert(back.hash)], p, Some(back.hash));
    StandsMeans(s, MAIN, base, map[], p, Some(back.hash));
    RunInParts(s, first, second + third);
    RunInParts(s1, second, third);
  }

  lemma LaterWins(delta: Changes, p: Path, ch: Change)
    requires delta.Keys <= {p}
    ensures delta + map[p := ch] == map[p := ch]
  {
  }

  lemma BothAfterWork(s: Store, work: string, base: CommitId, delta: Changes, p: Path, value: Option<Hash>,
                      v: Version, message: string, atMain: Option<Hash>) returns (t: Store)
    requires Stands(s, work, base, delta, p, value) && Stands(s, MAIN, base, map[], p, atMain) && work != MAIN
    requires value != Some(v.hash) && v.commit !in s.commits && !Blank(message) && delta.Keys <= {p}
    ensures Inv(s) && t == Run(s, Edit(work, p, v, message)).0
    ensures Stands(t, work, base, map[p := Upsert(v.hash)], p, Some(v.hash)) && Stands(t, MAIN, base, map[], p, atMain)
    ensures t.commits.Keys == s.commits.Keys + {v.commit}
  {
    hide *;
    StandsMeans(s, work, base, delta, p, value);
    EditMoves(s, work, base, delta, p, value, v, message);
    EditLeavesOthers(s, work, p, v, message, MAIN, base, map[], p, atMain);
    LaterWins(delta, p, Upsert(v.hash));
    t := Run(s, Edit(work, p, v, message)).0;
  }

  lemma StandsMeans(s: Store, ws: string, base: CommitId, delta: Changes, p: Path, value: Option<Hash>)
    requires Stands(s, ws, base, delta, p, value)
    ensures Inv(s) && ws in s.workspaces && StagedOf(s, ws) == map[]
    ensures s.workspaces[ws].head in s.commits && Get(TreeAt(s.commits, s.workspaces[ws].head), p) == value
  {
  }

  /** A merge of a file changed back, into a `main` that changed it, names the file. */
  lemma MergeRefuses(s: Store, work: string, base: CommitId, p: Path, h: Hash, other: Hash, message: string,
                     id: CommitId, rejected: bool)
    requires Stands(s, work, base, map[p := Upsert(h)], p, Some(h)) && work != MAIN
    requires Stands(s, MAIN, base, map[p := Upsert(other)], p, Some(other)) && h != other && !Blank(message)
    ensures Inv(s)
    ensures MergeReply(s, work, MAIN, message, id, rejected)
         == Failed(Conflicting(map[p := Conflict(Upsert(h), Upsert(other))]))
  {
    assert SourceDelta(s, work) == map[p := Upsert(h)];
    assert p in SourceDelta(s, work);
    assert MergeConflicts(s, work, MAIN) == map[p := Conflict(Upsert(h), Upsert(other))];
    assert p in MergeConflicts(s, work, MAIN);
    hide Inv, Delta, TreeAt, Ancestor, Blank;
  }

  lemma BaseHolds(s: Store, ws: string, base: CommitId, p: Path, value: Option<Hash>)
    requires Stands(s, ws, base, map[], p, value)
    ensures Inv(s) && base in s.commits && Get(TreeAt(s.commits, base), p) == value
  {
    HeadsExist(s, ws);
    DeltaAtHead(s.commits, s.workspaces[ws].head, base, p);
    hide Inv, Delta, TreeAt, Ancestor;
  }

  lemma BaseKept(s: Store, t: Store, base: CommitId)
    requires Inv(s) && Good(s, t) && base in s.commits
    ensures WellFormed(s.commits) && WellFormed(t.commits) && base in t.commits
    ensures TreeAt(t.commits, base) == TreeAt(s.commits, base)
  {
    ExtensionKeepsCommit(s.commits, t.commits, base);
  }

  /** A workspace's head holds at `p` what its base does, and yet merging it into `main` is refused
      because of `p`, where `main` alone has a new value. */
  ghost predicate FalselyRefused(s: Store, work: string, p: Path, back: Hash, other: Hash, reply: Reply) {
    && Inv(s) && work in s.workspaces
    && Get(TreeAt(s.commits, s.workspaces[work].base), p) == Some(back)
    && Get(TreeAt(s.commits, s.workspaces[work].head), p) == Some(back)
    && Get(TreeAt(s.commits, s.workspaces[MAIN].head), p) == Some(other) != Some(back)
    && reply == Failed(Conflicting(map[p := Conflict(Upsert(back), Upsert(other))]))
  }

  lemma RefusedMeans(s: Store, work: string, base: CommitId, p: Path, back: Hash, other: Hash, reply: Reply)
    requires Stands(s, work, base, map[p := Upsert(back)], p, Some(back)) && work != MAIN
    requires Stands(s, MAIN, base, map[p := Upsert(other)], p, Some(other)) && back != other
    requires WellFormed(s.commits) && base in s.commits && Get(TreeAt(s.commits, base), p) == Some(back)
    requires reply == Failed(Conflicting(map[p := Conflict(Upsert(back), Upsert(other))]))
    ensures FalselyRefused(s, work, p, back, other, reply)
  {
    hide TreeAt, Delta;
  }

  /** In a fork of `main`'s head, change a file and change it back, and change it in `main`: the file's
      value in the fork is the base's, so there is no real conflict, and yet the merge refuses it. */
  lemma RevertedChangeConflicts(s: Store, work: string, base: CommitId, p: Path,
                                away: Version, back: Version, other: Version, message: string, id: CommitId)
    requires Stands(s, work, base, map[], p, Some(back.hash)) && Stands(s, MAIN, base, map[], p, Some(back.hash))
    requires work != MAIN && away.hash != back.hash && other.hash != back.hash && !Blank(message)
    requires Fresh(s, away, back, other)
    ensures Inv(s)
    ensures var t := Run(s, RevertOps(work, p, away, back, other, message)).0;
      && Inv(t)
      && FalselyRefused(t, work, p, back.hash, other.hash, MergeReply(t, work, MAIN, message, id, false))
  {
    hide *;
    StandsMeans(s, MAIN, base, map[], p, Some(back.hash));
    RevertMoves(s, work, base, p, away, back, other, message);
    var ops := RevertOps(work, p, away, back, other, message);
    var t := Run(s, ops).0;
    MergeRefuses(t, work, base, p, back.hash, other.hash, message, id, false);
    BaseHolds(s, MAIN, base, p, Some(back.hash));
    RunGood(s, ops);
    BaseKept(s, t, base);
    RefusedMeans(t, work, base, p, back.hash, other.hash, MergeReply(t, work, MAIN, message, id, false));
  }

  // ----- from a fresh database -----

  lemma FreshMainStands(root: CommitId, p: Path)
    ensures Stands(Initial(root), MAIN, root, map[], p, None)
  {
  }

  lemma ForkStands(s: Store, work: string, base: CommitId, delta: Changes, p: Path, value: Option<Hash>)
    requires Stands(s, MAIN, base, delta, p, value) && work !in s.workspaces && work != "" && work != MAIN
    ensures var t := Step(s, OpCreate(work, MAIN)).0;
      var head := s.workspaces[MAIN].head;
      && Stands(t, work, head, map[], p, value) && Stands(t, MAIN, head, map[], p, value)
      && t.commits == s.commits
  {
    CreateGood(s, work, MAIN);
    HeadsExist(s, MAIN);
    hide Inv, Keeps, TreeAt;
  }

  /** A run from a fresh database: add a file, fork, change the file and change it back in the fork,
      change it in `main`, merge. */
  function RevertRun(work: string, p: Path, first: Version, away: Version, back: Version, other: Version,
                     message: string, id: CommitId): seq<Op> {
    (Edit(MAIN, p, first, message) + [OpCreate(work, MAIN)])
      + (RevertOps(work, p, away, back, other, message) + [OpMerge(work, MAIN, message, id, false)])
  }

  lemma ForkedHere(root: CommitId, work: string, p: Path, first: Version, message: string)
    requires first.commit != root && !Blank(message) && work != "" && work != MAIN
    ensures var t := Run(Initial(root), Edit(MAIN, p, first, message) + [OpCreate(work, MAIN)]).0;
      && Stands(t, work, first.commit, map[], p, Some(first.hash))
      && Stands(t, MAIN, first.commit, map[], p, Some(first.hash))
      && t.commits.Keys == {root, first.commit}
  {
    hide *;
    FreshMainStands(root, p);
    var s := Initial(root);
    StandsMeans(s, MAIN, root, map[], p, None);
    InitialRows(root);
    EditMoves(s, MAIN, root, map[], p, None, first, message);
    EditRows(s, MAIN, p, first, message);
    RunInParts(s, Edit(MAIN, p, first, message), [OpCreate(work, MAIN)]);
    var t := Run(s, Edit(MAIN, p, first, message)).0;
    ForkStands(t, work, root, map[] + map[p := Upsert(first.hash)], p, Some(first.hash));
    OneStep(t, OpCreate(work, MAIN));
  }

  lemma InitialRows(root: CommitId)
    ensures Initial(root).workspaces == map[MAIN := Workspace(root, root, None)]
    ensures Initial(root).commits.Keys == {root}
  {
  }

  lemma LastReply(s: Store, ops: seq<Op>, last: Op)
    requires Inv(s)
    ensures Inv(Run(s, ops).0)
    ensures var (t, replies) := Run(s, ops + [last]);
      && t == Step(Run(s, ops).0, last).0 && replies == Run(s, ops).1 + [Step(Run(s, ops).0, last).1]
  {
    hide *;
    RunInParts(s, ops, [last]);
    OneStep(Run(s, ops).0, last);
  }

  /** Such a run exists from every fresh database, whatever the names and contents: the converse of
      `TrueConflictsAreReported` is false of the code.  Where it fails is `FalseConflictsExactly`. */
  lemma RevertedChangeStillConflicts(root: CommitId, work: string, p: Path, first: Version,
                                     away: Version, back: Version, other: Version, message: string, id: CommitId)
    requires work != "" && work != MAIN && !Blank(message)
    requires first.hash == back.hash && away.hash != back.hash && other.hash != back.hash
    requires Apart([root, first.commit, away.commit, back.commit, other.commit])
    ensures var (t, replies) := Run(Initial(root), RevertRun(work, p, first, away, back, other, message, id));
      && replies != [] && FalselyRefused(t, work, p, back.hash, other.hash, replies[|replies| - 1])
  {
    RevertRunParts(work, p, first, away, back, other, message, id);
    hide *;
    ApartMeans(root, first, away, back, other);
    ForkedHere(root, work, p, first, message);
    var fork := Edit(MAIN, p, first, message) + [OpCreate(work, MAIN)];
    var ops := RevertOps(work, p, away, back, other, message);
    var merge := OpMerge(work, MAIN, message, id, false);
    var s := Run(Initial(root), fork).0;
    RevertedChangeConflicts(s, work, first.commit, p, away, back, other, message, id);
    var t := Run(s, ops).0;
    LastReply(s, ops, merge);
    RunInParts(Initial(root), fork, ops + [merge]);
    RefusedStep(t, work, p, back.hash, other.hash, message, id);
  }

  lemma RevertRunParts(work: string, p: Path, first: Version, away: Version, back: Version, other: Version,
                       message: string, id: CommitId)
    ensures RevertRun(work, p, first, away, back, other, message, id)
         == (Edit(MAIN, p, first, message) + [OpCreate(work, MAIN)])
              + (RevertOps(work, p, away, back, other, message) + [OpMerge(work, MAIN, message, id, false)])
  {
  }

  lemma RefusedStep(s: Store, work: string, p: Path, back: Hash, other: Hash, message: string, id: CommitId)
    requires Inv(s) && FalselyRefused(s, work, p, back, other, MergeReply(s, work, MAIN, message, id, false))
    ensures Step(s, OpMerge(work, MAIN, message, id, false)) == (s, MergeReply(s, work, MAIN, message, id, false))
  {
    hide Inv, MergeReply, TreeAt;
  }

  predicate Apart(ids: seq<CommitId>) {
    forall i, j :: 0 <= i < j < |ids| ==> ids[i] != ids[j]
  }

  lemma ApartMeans(root: CommitId, first: Version, away: Version, back: Version, other: Version)
    requires Apart([root, first.commit, away.commit, back.commit, other.commit])
    ensures first.commit != root
    ensures forall s: Store :: s.commits.Keys == {root, first.commit} ==> Fresh(s, away, back, other)
  {
    var ids := [root, first.commit, away.commit, back.commit, other.commit];
    assert ids[0] != ids[1] && ids[2] !in {ids[0], ids[1]} && ids[3] !in {ids[0], ids[1], ids[2]};
    assert ids[4] !in {ids[0], ids[1], ids[2], ids[3]};
  }
}
