/** What staging does to what a workspace shows, and how it is undone. */
module Staging {
  import opened Wrappers
  import opened History
  import opened Workspaces
  import Runs

  lemma OverlayPut(t: Tree, ch: Changes, p: Path, c: Change)
    ensures Overlay(t, ch[p := c]) ==
            match c case Upsert(h) => Overlay(t, ch)[p := h] case Delete => Overlay(t, ch) - {p}
  {
  }

  lemma StagingElsewhereReadsTheSame(s: Store, ws: string, p: Path, ch: Change, q: Path)
    requires Inv(s) && Inv(Stage(s, ws, p, ch)) && p != q
    ensures ReadFile(Stage(s, ws, p, ch), ws, q) == ReadFile(s, ws, q)
  {
  }

  lemma WritingElsewhereReadsTheSame(s: Store, ws: string, p: Path, h: Hash, content: string, q: Path)
    requires Inv(s) && p != q && Inv(WriteFile(s, ws, p, h, content).0)
    ensures ReadFile(WriteFile(s, ws, p, h, content).0, ws, q) == ReadFile(s, ws, q)
  {
    if ws in s.workspaces {
      var t := StoreBlob(s, h, content);
      StoreBlobKeepsInv(s, h, content);
      StagingElsewhereReadsTheSame(t, ws, p, Upsert(h), q);
      Runs.SameRowsReadTheSame(s, t, ws, q);
    }
  }

  /** A write shows in the visible tree at its path and nowhere else. */
  lemma WriteShows(s: Store, ws: string, p: Path, h: Hash, content: string)
    requires Inv(s) && ws in s.workspaces
    ensures var t := WriteFile(s, ws, p, h, content).0;
      Inv(t) && Visible(t, ws) == Visible(s, ws)[p := h]
  {
    hide Inv, Keeps, Overlay, TreeAt, ByteSize;
    HeadsExist(s, ws);
    StepGood(s, OpWrite(ws, p, h, content));
    OverlayPut(TreeAt(s.commits, s.workspaces[ws].head), StagedOf(s, ws), p, Upsert(h));
  }

  lemma DeleteShows(s: Store, ws: string, p: Path)
    requires Inv(s) && ws in s.workspaces
    ensures var t := DeleteFile(s, ws, p).0;
      Inv(t) && Visible(t, ws) == Visible(s, ws) - {p}
  {
    hide Inv, Keeps, Overlay, TreeAt;
    HeadsExist(s, ws);
    StepGood(s, OpDelete(ws, p));
    OverlayPut(TreeAt(s.commits, s.workspaces[ws].head), StagedOf(s, ws), p, Delete);
  }

  /** A write reads back as a file, whose content is the one written if and only if the hash was new
      or already stood for it: the first content stored under a hash stays.  Other paths read as
      before. */
  lemma ReadAfterWrite(s: Store, ws: string, p: Path, h: Hash, content: string, q: Path)
    requires Inv(s) && ws in s.workspaces
    ensures var t := WriteFile(s, ws, p, h, content).0;
      && Inv(t)
      && ReadFile(t, ws, p).File?
      && (ReadFile(t, ws, p).file.content == content <==> h !in s.blobs || s.blobs[h].content == content)
      && (q != p ==> ReadFile(t, ws, q) == ReadFile(s, ws, q))
  {
    hide Inv, Visible, SnapshotFor, ByteSize;
    var t := WriteFile(s, ws, p, h, content).0;
    WriteShows(s, ws, p, h, content);
    ReadAgreesWithList(t, ws, p);
    if q != p { WritingElsewhereReadsTheSame(s, ws, p, h, content, q); }
  }

  // ----- content-addressed blobs -----

  /** Every blob is stored under the hash of its content. */
  ghost predicate Hashed(hash: string -> string, blobs: Blobs) {
    forall h :: h in blobs ==> h == hash(blobs[h].content)
  }

  /** Every write names the hash of what it writes. */
  predicate Hashes(hash: string -> string, op: Op) {
    op.OpWrite? ==> op.hash == hash(op.content)
  }

  ghost predicate Injective(hash: string -> string) {
    forall a, b :: hash(a) == hash(b) ==> a == b
  }

  lemma StepKeepsHashed(hash: string -> string, s: Store, op: Op)
    requires Inv(s) && Hashed(hash, s.blobs) && Hashes(hash, op)
    ensures Hashed(hash, Step(s, op).0.blobs)
  {
    hide Inv, Effective, SourceDelta, CommitReply, MergeReply, ReadFile, ReadFileAt, ListFiles, TreeWorkspace, Ancestor;
  }

  lemma {:induction false} RunKeepsHashed(hash: string -> string, s: Store, ops: seq<Op>)
    requires Inv(s) && Hashed(hash, s.blobs) && forall i :: 0 <= i < |ops| ==> Hashes(hash, ops[i])
    ensures Hashed(hash, Runs.Run(s, ops).0.blobs)
    decreases |ops|
  {
    hide Inv, Keeps, Hashed, Hashes, Step;
    if ops != [] {
      StepGood(s, ops[0]);
      StepKeepsHashed(hash, s, ops[0]);
      RunKeepsHashed(hash, Step(s, ops[0]).0, ops[1..]);
    }
  }

  /** With hashes that do not collide, whatever has happened since the database was made, a written
      file reads back exactly as it was written, and other paths read as before. */
  lemma ReadYourWrites(hash: string -> string, root: CommitId, ops: seq<Op>, ws: string, p: Path, content: string,
                       q: Path)
    requires Injective(hash) && forall i :: 0 <= i < |ops| ==> Hashes(hash, ops[i])
    requires ws in Runs.Run(Initial(root), ops).0.workspaces
    ensures var s := Runs.Run(Initial(root), ops).0;
      && Inv(s)
      && var t := WriteFile(s, ws, p, hash(content), content).0;
         && Inv(t)
         && ReadFile(t, ws, p).File? && ReadFile(t, ws, p).file.content == content
         && (q != p ==> ReadFile(t, ws, q) == ReadFile(s, ws, q))
  {
    hide Inv, WriteFile, ReadFile;
    Runs.RunGood(Initial(root), ops);
    RunKeepsHashed(hash, Initial(root), ops);
    var s := Runs.Run(Initial(root), ops).0;
    ReadAfterWrite(s, ws, p, hash(content), content, q);
    HashedWritesRead(hash, s.blobs, content);
  }

  /** Where every blob has its own hash, the hash of a content stands for no other content. */
  lemma HashedWritesRead(hash: string -> string, blobs: Blobs, content: string)
    requires Injective(hash) && Hashed(hash, blobs)
    ensures hash(content) !in blobs || blobs[hash(content)].content == content
  {
  }

  /** A deleted file is not found, and other paths read as before. */
  lemma DeletedIsNotFound(s: Store, ws: string, p: Path, q: Path)
    requires Inv(s) && ws in s.workspaces
    ensures var t := DeleteFile(s, ws, p).0;
      && Inv(t)
      && ReadFile(t, ws, p) == Failed(NotFound)
      && (q != p ==> ReadFile(t, ws, q) == ReadFile(s, ws, q))
  {
    hide Inv, Visible, SnapshotFor;
    var t := DeleteFile(s, ws, p).0;
    DeleteShows(s, ws, p);
    ReadAgreesWithList(t, ws, p);
    if q != p { StagingElsewhereReadsTheSame(s, ws, p, Delete, q); }
  }

  // ----- rolling back -----

  /** A run of writes and deletes in one workspace. */
  predicate OnlyStages(ops: seq<Op>, ws: string) {
    forall i | 0 <= i < |ops| :: match ops[i]
      case OpWrite(w, _, _, _) => w == ws
      case OpDelete(w, _) => w == ws
      case _ => false
  }

  /** However much has been staged, a rollback brings back exactly the tree of the head, which staging
      did not move; every later read is of that tree. */
  lemma RollbackUndoesStaging(s: Store, ops: seq<Op>, ws: string, p: Path)
    requires Inv(s) && ws in s.workspaces && OnlyStages(ops, ws)
    ensures var u := Runs.Run(s, ops + [OpRollback(ws)]).0;
      && Inv(u) && ws in u.workspaces
      && u.workspaces == s.workspaces && u.commits == s.commits
      && Visible(u, ws) == TreeAt(s.commits, s.workspaces[ws].head)
      && (StagedOf(s, ws) == map[] ==> ReadFile(u, ws, p) == ReadFile(s, ws, p))
  {
    hide Inv, Keeps, Visible, Overlay, TreeAt, ReadFile;
    RunThenOne(s, ops, OpRollback(ws));
    var t := Runs.Run(s, ops).0;
    StagingMovesNothing(s, ops, ws);
    Runs.RunGood(s, ops);
    StepGood(t, OpRollback(ws));
    var u := Step(t, OpRollback(ws)).0;
    NothingStagedShowsTheHead(u, ws);
    if StagedOf(s, ws) == map[] {
      KeepsTransitive(s, t, u);
      Runs.SameRowsReadTheSame(s, u, ws, p);
    }
  }

  lemma NothingStagedShowsTheHead(s: Store, ws: string)
    requires Inv(s) && ws in s.workspaces && StagedOf(s, ws) == map[]
    ensures Visible(s, ws) == TreeAt(s.commits, s.workspaces[ws].head)
  {
    HeadsExist(s, ws);
  }

  lemma {:induction false} RunThenOne(s: Store, ops: seq<Op>, op: Op)
    requires Inv(s)
    ensures var t := Runs.Run(s, ops).0; Inv(t) && Runs.Run(s, ops + [op]).0 == Step(t, op).0
    decreases |ops|
  {
    hide Inv, Step, Keeps;
    Runs.RunGood(s, ops);
    if ops == [] {
      assert ops + [op] == [op] && [op][1..] == [];
      StepGood(s, op);
      assert Runs.Run(Step(s, op).0, []).0 == Step(s, op).0;
    } else {
      StepGood(s, ops[0]);
      assert (ops + [op])[0] == ops[0] && (ops + [op])[1..] == ops[1..] + [op];
      RunThenOne(Step(s, ops[0]).0, ops[1..], op);
    }
  }

  lemma {:induction false} StagingMovesNothing(s: Store, ops: seq<Op>, ws: string)
    requires Inv(s) && OnlyStages(ops, ws)
    ensures var t := Runs.Run(s, ops).0; t.workspaces == s.workspaces && t.commits == s.commits
    decreases |ops|
  {
    hide Inv, Keeps;
    if ops != [] {
      StepGood(s, ops[0]);
      StagingMovesNothing(Step(s, ops[0]).0, ops[1..], ws);
    }
  }
}
